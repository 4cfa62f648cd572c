/**
 * The transmission driver: two FSK engines, one for motors M1-M3 and one for
 * motor M4, ticked together by a periodic task that also starts a new
 * transmission when asked to, after a pause, and rebuilds both engines when
 * the parameters change.
 *
 * Every `transmit_func` value of an engine goes through an anti-chatter
 * wrapper that passes a frequency on to the motor driver only when it differs
 * from the last one passed on. The motor driver itself is outside the model:
 * what reaches it is a sequence of MotorCall values.
 *
 * As for the engine, each C function is a pure step over a Driver value, and
 * the class MotorTransmission, which holds the file's static variables, is
 * proved to perform exactly those steps.
 */
module MotorTransmission {
  import opened CInts
  import opened Motors
  import opened Modulation

  const TASK_PERIOD: u32 := 25
  const CENTER_FREQ: u16 := 10000
  const BANDWIDTH: u16 := 500
  const SYMBOL_LENGTH: u16 := 100
  const SYMBOL_PAUSE: u16 := 400

  /** The motor ids of motors.h, M1 to M4. */
  const MOTOR_M1: nat := 0
  const MOTOR_M2: nat := 1
  const MOTOR_M3: nat := 2
  const MOTOR_M4: nat := 3

  /** `hello`: the bytes of "Hello world! :) \n" with the terminating NUL. */
  const HELLO: seq<byte> :=
    [0x48, 0x65, 0x6C, 0x6C, 0x6F, 0x20, 0x77, 0x6F, 0x72, 0x6C, 0x64, 0x21, 0x20, 0x3A, 0x29, 0x20, 0x0A, 0x00]

  // ---------------------------------------------------------------------
  // The anti-chatter wrappers transmit_motor4 and transmit_motor123
  // ---------------------------------------------------------------------

  /** The wrapper's `last_frequency` afterwards and the motor calls it made. */
  datatype Forwarded = Forwarded(last: u32, calls: seq<MotorCall>)

  /** transmit_motor4: one value from the M4 engine. */
  function TransmitMotor4Step(last: u32, frequency: u32): (r: Forwarded)
    ensures r.last == frequency
    ensures r.calls != [] <==> last != frequency
    ensures |r.calls| <= 1 && forall k :: 0 <= k < |r.calls| ==> r.calls[k] == MotorCall(MOTOR_M4, ToU16(frequency))
  {
    if last != frequency then Forwarded(frequency, [MotorCall(MOTOR_M4, ToU16(frequency))])
    else Forwarded(last, [])
  }

  /** transmit_motor123: one value from the M1-M3 engine, written to the three motors in turn. */
  function TransmitMotor123Step(last: u32, frequency: u32): (r: Forwarded)
    ensures r.last == frequency
    ensures |r.calls| == if last != frequency then 3 else 0
    ensures forall k :: 0 <= k < |r.calls| ==> r.calls[k] == MotorCall(k, ToU16(frequency))
  {
    if last != frequency then
      var f := ToU16(frequency);
      Forwarded(frequency, [MotorCall(MOTOR_M1, f), MotorCall(MOTOR_M2, f), MotorCall(MOTOR_M3, f)])
    else Forwarded(last, [])
  }

  /** A sequence of values passed to transmit_motor4, in order. */
  function Forward4(last: u32, fs: seq<u32>): (r: Forwarded)
    ensures r.last == if fs == [] then last else fs[|fs| - 1]
    decreases |fs|
  {
    if fs == [] then Forwarded(last, [])
    else
      var s := TransmitMotor4Step(last, fs[0]);
      var t := Forward4(s.last, fs[1..]);
      Forwarded(t.last, s.calls + t.calls)
  }

  /** A sequence of values passed to transmit_motor123, in order. */
  function Forward123(last: u32, fs: seq<u32>): (r: Forwarded)
    ensures r.last == if fs == [] then last else fs[|fs| - 1]
    decreases |fs|
  {
    if fs == [] then Forwarded(last, [])
    else
      var s := TransmitMotor123Step(last, fs[0]);
      var t := Forward123(s.last, fs[1..]);
      Forwarded(t.last, s.calls + t.calls)
  }

  /** Every call the M4 wrapper makes addresses motor M4. */
  predicate OnMotor4(calls: seq<MotorCall>)
  {
    forall k :: 0 <= k < |calls| ==> calls[k].motor == MOTOR_M4
  }

  /**
   * The M4 wrapper never repeats itself: its first call differs from the
   * frequency it last passed on, each call differs from the one before, and
   * the last call is the wrapper's new `last_frequency` (for frequencies that
   * fit the motor driver's uint16_t).
   */
  lemma {:induction false} Forward4NoRepeats(last: u32, fs: seq<u32>)
    requires last < 0x1_0000 && forall k :: 0 <= k < |fs| ==> fs[k] < 0x1_0000
    ensures var r := Forward4(last, fs);
      && OnMotor4(r.calls)
      && |r.calls| <= |fs|
      && (r.calls != [] ==> r.calls[0].freq != last && r.calls[|r.calls| - 1].freq == r.last)
      && (r.calls == [] ==> r.last == last)
      && (forall k :: 0 <= k < |r.calls| - 1 ==> r.calls[k].freq != r.calls[k + 1].freq)
    decreases |fs|
  {
    if fs != [] {
      var s := TransmitMotor4Step(last, fs[0]);
      Forward4NoRepeats(s.last, fs[1..]);
      var t := Forward4(s.last, fs[1..]);
      if s.calls != [] && t.calls != [] {
        assert (s.calls + t.calls)[1] == t.calls[0];
      }
    }
  }

  /** Every change of value is passed on: a frequency different from the last one always reaches motor M4 as the first call. */
  lemma Forward4Change(last: u32, f: u32, fs: seq<u32>)
    requires f != last
    ensures Forward4(last, [f] + fs).calls == [MotorCall(MOTOR_M4, ToU16(f))] + Forward4(f, fs).calls
  {
    assert ([f] + fs)[1..] == fs;
  }

  /** Because last_frequency starts at 0, an initial 0 is swallowed, and a repeated value is passed on once. */
  lemma Forward4Stutter(last: u32, f: u32, fs: seq<u32>)
    ensures Forward4(f, [f] + fs) == Forward4(f, fs)
    ensures Forward4(last, [f, f] + fs) == Forward4(last, [f] + fs)
  {
    assert ([f] + fs)[1..] == fs;
    assert ([f, f] + fs)[1..] == [f] + fs;
  }

  /** Feeding the wrapper two runs of values one after the other is feeding it their concatenation. */
  lemma {:induction false} Forward4Append(last: u32, fs: seq<u32>, gs: seq<u32>)
    ensures var r := Forward4(last, fs);
      Forward4(last, fs + gs) == Forwarded(Forward4(r.last, gs).last, r.calls + Forward4(r.last, gs).calls)
    decreases |fs|
  {
    if fs == [] {
      assert fs + gs == gs;
    } else {
      assert (fs + gs)[1..] == fs[1..] + gs;
      Forward4Append(TransmitMotor4Step(last, fs[0]).last, fs[1..], gs);
    }
  }

  /** What transmit_motor123 sends is what transmit_motor4 sends, written to M1, M2 and M3 in turn instead of M4. */
  function FanOut(calls: seq<MotorCall>): (r: seq<MotorCall>)
    ensures |r| == 3 * |calls|
  {
    if calls == [] then []
    else
      var f := calls[0].freq;
      [MotorCall(MOTOR_M1, f), MotorCall(MOTOR_M2, f), MotorCall(MOTOR_M3, f)] + FanOut(calls[1..])
  }

  lemma {:induction false} Forward123IsFanOut(last: u32, fs: seq<u32>)
    ensures Forward123(last, fs).last == Forward4(last, fs).last
    ensures Forward123(last, fs).calls == FanOut(Forward4(last, fs).calls)
    decreases |fs|
  {
    if fs != [] {
      var s := TransmitMotor4Step(last, fs[0]);
      Forward123IsFanOut(s.last, fs[1..]);
      var t := Forward4(s.last, fs[1..]);
      if s.calls != [] {
        assert (s.calls + t.calls)[1..] == t.calls;
      } else {
        assert s.calls + t.calls == t.calls;
      }
    }
  }

  /** The engines hand the wrapper at most one value per call, and then the wrapper acts once. */
  lemma ForwardOne(last: u32, fs: seq<u32>)
    requires |fs| <= 1
    ensures Forward4(last, fs) == if fs == [] then Forwarded(last, []) else TransmitMotor4Step(last, fs[0])
    ensures Forward123(last, fs) == if fs == [] then Forwarded(last, []) else TransmitMotor123Step(last, fs[0])
  {
    if fs != [] {
      assert fs[1..] == [];
    }
  }

  /**
   * The byte 0xC6 on an engine built with the default parameters: HIGH HIGH
   * LOW LOW LOW HIGH HIGH LOW gives 10250 10250 9750 9750 9750 10250 10250
   * 9750 then 0, and motor M4 sees only the five changes.
   */
  lemma DefaultByteOnMotor4()
    ensures var p := Create(CENTER_FREQ, BANDWIDTH, SYMBOL_LENGTH, TASK_PERIOD).props;
      && p == Props(9750, 10250, 4)
      && Forward4(0, Freqs(p, Encode(0xC6)) + [0]).calls
         == [MotorCall(MOTOR_M4, 10250), MotorCall(MOTOR_M4, 9750), MotorCall(MOTOR_M4, 10250),
             MotorCall(MOTOR_M4, 9750), MotorCall(MOTOR_M4, 0)]
  {
    var p := Create(CENTER_FREQ, BANDWIDTH, SYMBOL_LENGTH, TASK_PERIOD).props;
    DefaultFreqs();
    DedupExample();
  }

  lemma DefaultFreqs()
    ensures var p := Create(CENTER_FREQ, BANDWIDTH, SYMBOL_LENGTH, TASK_PERIOD).props;
      && p == Props(9750, 10250, 4)
      && Freqs(p, Encode(0xC6)) + [0] == [10250, 10250, 9750, 9750, 9750, 10250, 10250, 9750, 0]
  {
    var p := Create(CENTER_FREQ, BANDWIDTH, SYMBOL_LENGTH, TASK_PERIOD).props;
    assert p == Props(9750, 10250, 4);
    EncodeExample();
  }

  lemma DedupExample()
    ensures Forward4(0, [10250, 10250, 9750, 9750, 9750, 10250, 10250, 9750, 0]).calls
         == [MotorCall(MOTOR_M4, 10250), MotorCall(MOTOR_M4, 9750), MotorCall(MOTOR_M4, 10250),
             MotorCall(MOTOR_M4, 9750), MotorCall(MOTOR_M4, 0)]
  {
  }

  // ---------------------------------------------------------------------
  // The driver as a value
  // ---------------------------------------------------------------------

  /** The run-time parameters of the m_comms group that the driver reads. */
  datatype Params = Params(
    transmit: byte, chosenCharA: byte, chosenCharB: byte, symbolPause: u16,
    centerFreqA: u16, centerFreqB: u16, bandwidth: u16, symbolLength: u16,
    updateModuleParams: bool)

  /** The parameters' initial values. */
  const DEFAULT_PARAMS: Params :=
    Params(0, 0, 1, SYMBOL_PAUSE, CENTER_FREQ, CENTER_FREQ, BANDWIDTH, SYMBOL_LENGTH, false)

  /**
   * The file's state: the two engines, the two wrappers' `last_frequency`,
   * update_transmission's `pause`, `transmitting_stream`, `error_code` and the
   * parameters.
   */
  datatype Driver = Driver(
    m123: Engine, m4: Engine, last123: u32, last4: u32,
    pause: int, stream: bool, errorCode: byte, params: Params)

  /** What one call does: the driver afterwards and the motor calls it made, in order. */
  datatype Tick = Tick(next: Driver, calls: seq<MotorCall>)

  /** The largest `symbol_pause / TASK_PERIOD`. */
  const MAX_PAUSE: nat := 0xFFFF / 25

  /** Both engines well formed, and the chosen characters inside `hello`. */
  predicate DriverOk(d: Driver)
  {
    && Consistent(d.m123) && Consistent(d.m4)
    && 0 <= d.pause <= MAX_PAUSE
    && d.params.chosenCharA < |HELLO| && d.params.chosenCharB < |HELLO|
  }

  /** The state after static initialisation and the two mod_create calls of motorTransmissionInit. */
  function InitialDriver(): (d: Driver)
    ensures DriverOk(d) && !d.stream && d.pause == 0
  {
    var e := Create(CENTER_FREQ, BANDWIDTH, SYMBOL_LENGTH, TASK_PERIOD);
    Driver(e, e, 0, 0, 0, false, 0, DEFAULT_PARAMS)
  }

  /** The number of ticks `pause` must count before a start. */
  function PauseTicks(p: Params): nat
  {
    p.symbolPause / TASK_PERIOD
  }

  /** check_update_module_parameters. */
  function CheckUpdateStep(d: Driver): (r: Tick)
    requires DriverOk(d)
    ensures DriverOk(r.next)
    ensures r.next.params == d.params.(updateModuleParams := false)
    ensures !d.params.updateModuleParams ==> r == Tick(d, [])
    ensures d.params.updateModuleParams ==>
      && r.next.m123 == Create(d.params.centerFreqA, d.params.bandwidth, d.params.symbolLength, TASK_PERIOD)
      && r.next.m4 == Create(d.params.centerFreqB, d.params.bandwidth, d.params.symbolLength, TASK_PERIOD)
      && r.next.(m123 := d.m123, m4 := d.m4, last123 := d.last123, last4 := d.last4, params := d.params) == d
    ensures d.params.updateModuleParams ==>
      var fa := Forward123(d.last123, DestructStep(d.m123).calls);
      var fb := Forward4(d.last4, DestructStep(d.m4).calls);
      && r.calls == fa.calls + fb.calls
      && r.next.last123 == fa.last && r.next.last4 == fb.last
  {
    var p := d.params;
    if !p.updateModuleParams then Tick(d, [])
    else
      var a := DestructStep(d.m123);
      var fa := Forward123(d.last123, a.calls);
      var m123 := Create(p.centerFreqA, p.bandwidth, p.symbolLength, TASK_PERIOD);
      var b := DestructStep(d.m4);
      var fb := Forward4(d.last4, b.calls);
      var m4 := Create(p.centerFreqB, p.bandwidth, p.symbolLength, TASK_PERIOD);
      Tick(d.(m123 := m123, m4 := m4, last123 := fa.last, last4 := fb.last,
              params := p.(updateModuleParams := false)),
           fa.calls + fb.calls)
  }

  /** The two mod_transmit calls at the head of update_transmission, M1-M3 first. */
  function TickEngines(d: Driver): (r: Tick)
    requires DriverOk(d)
    ensures DriverOk(r.next) && r.next.params == d.params
    ensures r.next.m123 == TransmitStep(d.m123).next && r.next.m4 == TransmitStep(d.m4).next
    ensures r.next.(m123 := d.m123, m4 := d.m4, last123 := d.last123, last4 := d.last4) == d
    ensures var fs := Forward123(d.last123, TransmitStep(d.m123).calls);
      var ft := Forward4(d.last4, TransmitStep(d.m4).calls);
      && r.calls == fs.calls + ft.calls
      && r.next.last123 == fs.last && r.next.last4 == ft.last
  {
    var s := TransmitStep(d.m123);
    var fs := Forward123(d.last123, s.calls);
    var t := TransmitStep(d.m4);
    var ft := Forward4(d.last4, t.calls);
    Tick(d.(m123 := s.next, m4 := t.next, last123 := fs.last, last4 := ft.last), fs.calls + ft.calls)
  }

  /** The start of update_transmission's stream: both engines are offered their chosen character of `hello`; only the second result is kept. */
  function StartStream(d: Driver): (r: Tick)
    requires DriverOk(d)
    ensures DriverOk(r.next) && r.next.params == d.params && r.next.pause == d.pause
    ensures r.next.stream && r.next.m123.req.isTransmitting && r.next.m4.req.isTransmitting
    ensures r.next.m123 == PrepareAndTransmitStep(d.m123, HELLO[d.params.chosenCharA]).next
    ensures r.next.m4 == PrepareAndTransmitStep(d.m4, HELLO[d.params.chosenCharB]).next
    ensures r.next.errorCode == if d.m4.req.isTransmitting then 0xFF else 0
    ensures var fa := Forward123(d.last123, PrepareAndTransmitStep(d.m123, HELLO[d.params.chosenCharA]).calls);
      var fb := Forward4(d.last4, PrepareAndTransmitStep(d.m4, HELLO[d.params.chosenCharB]).calls);
      && r.calls == fa.calls + fb.calls
      && r.next.last123 == fa.last && r.next.last4 == fb.last
  {
    var a := PrepareAndTransmitStep(d.m123, HELLO[d.params.chosenCharA]);
    var fa := Forward123(d.last123, a.calls);
    var b := PrepareAndTransmitStep(d.m4, HELLO[d.params.chosenCharB]);
    var fb := Forward4(d.last4, b.calls);
    Tick(d.(stream := true, m123 := a.next, m4 := b.next, last123 := fa.last, last4 := fb.last,
            errorCode := ToU8(b.ret)),
         fa.calls + fb.calls)
  }

  /** Whether update_transmission, with the engines already ticked, waits out another pause tick. */
  predicate Waiting(d: Driver)
  {
    d.params.transmit == 1 && !d.stream && d.pause + 1 < PauseTicks(d.params)
  }

  /** Whether update_transmission, with the engines already ticked, starts a stream. */
  predicate Starting(d: Driver)
  {
    d.params.transmit != 0 && !d.stream && !Waiting(d)
  }

  /** The tail of update_transmission, once the engines are ticked. */
  function AfterTick(d: Driver): (r: Tick)
    requires DriverOk(d)
    ensures DriverOk(r.next) && r.next.params == d.params
    ensures Waiting(d) ==> r == Tick(d.(pause := d.pause + 1), [])
    ensures Starting(d) ==> r.next.stream && r.next.pause == (if d.params.transmit == 1 then 0 else d.pause)
    ensures !Waiting(d) && !Starting(d) ==>
      && r.calls == []
      && r.next == d.(stream := d.stream && d.params.transmit != 0
                                && d.m123.req.isTransmitting && d.m4.req.isTransmitting)
    ensures r.next.stream ==> r.next.params.transmit != 0 && r.next.m123.req.isTransmitting && r.next.m4.req.isTransmitting
  {
    var gated := d.params.transmit == 1 && !d.stream;
    if gated && d.pause + 1 < PauseTicks(d.params) then Tick(d.(pause := d.pause + 1), [])
    else
      var d' := if gated then d.(pause := 0) else d;
      if d.params.transmit != 0 && !d.stream then StartStream(d')
      else
        var stream := d.stream && d.params.transmit != 0 && d.m123.req.isTransmitting && d.m4.req.isTransmitting;
        Tick(d.(stream := stream), [])
  }

  /** update_transmission: one tick of the periodic task. */
  function UpdateTransmissionStep(d: Driver): (r: Tick)
    requires DriverOk(d)
    ensures DriverOk(r.next)
    ensures r.next.params == d.params.(updateModuleParams := false)
    ensures r.next.stream ==> r.next.params.transmit != 0 && r.next.m123.req.isTransmitting && r.next.m4.req.isTransmitting
  {
    var c := CheckUpdateStep(d);
    var t := TickEngines(c.next);
    var a := AfterTick(t.next);
    Tick(a.next, c.calls + t.calls + a.calls)
  }

  /** Proof aid: concatenation of call logs is associative. */
  lemma Assoc(a: seq<MotorCall>, b: seq<MotorCall>, c: seq<MotorCall>)
    ensures a + b + c == a + (b + c)
  {
  }

  /** Proof aid: unfolds update_transmission into its three parts, so that the object's method can follow them one by one. */
  lemma UpdateTransmissionParts(d: Driver)
    requires DriverOk(d)
    ensures var c := CheckUpdateStep(d);
      var t := TickEngines(c.next);
      var a := AfterTick(t.next);
      UpdateTransmissionStep(d) == Tick(a.next, c.calls + t.calls + a.calls)
  {
  }

  // ---------------------------------------------------------------------
  // Properties of update_transmission
  // ---------------------------------------------------------------------

  /** The engines are ticked whatever else happens: without a start or a reconfiguration, the engines are exactly one mod_transmit further on. */
  lemma EnginesAlwaysTicked(d: Driver)
    requires DriverOk(d) && !d.params.updateModuleParams
    requires !Starting(TickEngines(d).next)
    ensures var r := UpdateTransmissionStep(d).next;
      r.m123 == TransmitStep(d.m123).next && r.m4 == TransmitStep(d.m4).next
  {
  }

  /** Outside a stream with transmit == 1, a tick whose pause count stays below the threshold only counts: no start, no change to the stream. */
  lemma WaitTick(d: Driver)
    requires DriverOk(d) && !d.params.updateModuleParams
    requires d.params.transmit == 1 && !d.stream && d.pause + 1 < PauseTicks(d.params)
    ensures var r := UpdateTransmissionStep(d).next;
      && !r.stream && r.pause == d.pause + 1 && r.params == d.params && r.errorCode == d.errorCode
  {
  }

  /** The tick at which the pause count reaches symbol_pause / TASK_PERIOD starts the stream and resets the count. */
  lemma GateOpens(d: Driver)
    requires DriverOk(d) && !d.params.updateModuleParams
    requires d.params.transmit == 1 && !d.stream && d.pause + 1 >= PauseTicks(d.params)
    ensures var r := UpdateTransmissionStep(d).next;
      r.stream && r.pause == 0 && r.m123.req.isTransmitting && r.m4.req.isTransmitting
  {
  }

  /** Only transmit == 1 goes through the pause gate: any other non-zero value starts a stream at once, whatever `pause` holds. */
  lemma OtherTransmitSkipsGate(d: Driver)
    requires DriverOk(d) && !d.params.updateModuleParams
    requires d.params.transmit >= 2 && !d.stream
    ensures var r := UpdateTransmissionStep(d).next;
      r.stream && r.pause == d.pause
  {
  }

  /** On a start, error_code is mod_prepare_and_transmit's -1 for a busy M4 engine stored in a uint8_t, and the M1-M3 engine's result is lost. */
  lemma ErrorCodeOfStart(d: Driver)
    requires DriverOk(d) && !d.params.updateModuleParams && Starting(TickEngines(d).next)
    ensures UpdateTransmissionStep(d).next.errorCode == if TransmitStep(d.m4).next.req.isTransmitting then 255 else 0
  {
  }

  /** transmit == 0 ends the stream at the next tick. */
  lemma ZeroTransmitEndsStream(d: Driver)
    requires DriverOk(d) && d.params.transmit == 0
    ensures !UpdateTransmissionStep(d).next.stream
  {
  }

  /** A stream ends at the first tick after which either engine has finished its byte. */
  lemma FinishedEngineEndsStream(d: Driver)
    requires DriverOk(d) && !d.params.updateModuleParams && d.stream && d.params.transmit != 0
    ensures var t := TickEngines(d).next;
      UpdateTransmissionStep(d).next.stream <==> t.m123.req.isTransmitting && t.m4.req.isTransmitting
  {
  }

  /** A raised update_module_params rebuilds both engines from the parameters, idle, before they are ticked, and is lowered. */
  lemma ReconfigureRebuilds(d: Driver)
    requires DriverOk(d) && d.params.updateModuleParams
    ensures var c := CheckUpdateStep(d).next;
      && !c.params.updateModuleParams
      && c.m123 == Create(d.params.centerFreqA, d.params.bandwidth, d.params.symbolLength, TASK_PERIOD)
      && c.m4 == Create(d.params.centerFreqB, d.params.bandwidth, d.params.symbolLength, TASK_PERIOD)
      && !c.m123.req.isTransmitting && !c.m4.req.isTransmitting
  {
  }

  /** What n successive ticks do. */
  datatype DriverTrace = DriverTrace(final: Driver, calls: seq<MotorCall>)

  function DriverRun(d: Driver, n: nat): (t: DriverTrace)
    requires DriverOk(d)
    ensures DriverOk(t.final)
    ensures n > 0 && t.final.stream ==> t.final.m123.req.isTransmitting && t.final.m4.req.isTransmitting
    decreases n
  {
    if n == 0 then DriverTrace(d, [])
    else
      var s := UpdateTransmissionStep(d);
      var t := DriverRun(s.next, n - 1);
      DriverTrace(t.final, s.calls + t.calls)
  }

  /** While the pause count stays below the threshold, each tick only counts. */
  lemma {:induction false} Waits(d: Driver, k: nat)
    requires DriverOk(d) && !d.params.updateModuleParams
    requires d.params.transmit == 1 && !d.stream
    requires k == 0 || d.pause + k < PauseTicks(d.params)
    ensures var r := DriverRun(d, k).final;
      && !r.stream && r.pause == d.pause + k && r.params == d.params
    decreases k
  {
    if k > 0 {
      WaitTick(d);
      Waits(UpdateTransmissionStep(d).next, k - 1);
    }
  }

  /** The tick after the waiting ones starts the stream. */
  lemma {:induction false} StartsAfter(d: Driver, k: nat)
    requires DriverOk(d) && !d.params.updateModuleParams
    requires d.params.transmit == 1 && !d.stream
    requires k == 0 || d.pause + k < PauseTicks(d.params)
    requires d.pause + k + 1 >= PauseTicks(d.params)
    ensures var r := DriverRun(d, k + 1).final;
      r.stream && r.pause == 0
    decreases k
  {
    if k == 0 {
      GateOpens(d);
    } else {
      WaitTick(d);
      StartsAfter(UpdateTransmissionStep(d).next, k - 1);
    }
  }

  /**
   * Asked to transmit with transmit == 1, an idle driver with `pause` at 0
   * waits: for the first K = max(1, symbol_pause / TASK_PERIOD) - 1 ticks no
   * stream runs and `pause` counts the ticks; the next tick starts the stream
   * and puts `pause` back to 0.
   */
  lemma StartDelay(d: Driver)
    requires DriverOk(d) && !d.params.updateModuleParams
    requires d.params.transmit == 1 && !d.stream && d.pause == 0
    ensures var K := if PauseTicks(d.params) == 0 then 0 else PauseTicks(d.params) - 1;
      && (forall k :: 0 <= k <= K ==> !DriverRun(d, k).final.stream && DriverRun(d, k).final.pause == k)
      && DriverRun(d, K + 1).final.stream && DriverRun(d, K + 1).final.pause == 0
  {
    var K := if PauseTicks(d.params) == 0 then 0 else PauseTicks(d.params) - 1;
    forall k | 0 <= k <= K
      ensures !DriverRun(d, k).final.stream && DriverRun(d, k).final.pause == k
    {
      Waits(d, k);
    }
    StartsAfter(d, K);
  }

  // ---------------------------------------------------------------------
  // What motor M4 receives during a stream
  // ---------------------------------------------------------------------

  /** The calls addressed to motor m, in order. */
  function ToMotor(calls: seq<MotorCall>, m: nat): seq<MotorCall>
  {
    if calls == [] then [] else (if calls[0].motor == m then [calls[0]] else []) + ToMotor(calls[1..], m)
  }

  lemma {:induction false} ToMotorAppend(a: seq<MotorCall>, b: seq<MotorCall>, m: nat)
    ensures ToMotor(a + b, m) == ToMotor(a, m) + ToMotor(b, m)
    decreases |a|
  {
    if a == [] {
      assert a + b == b;
    } else {
      assert (a + b)[0] == a[0] && (a + b)[1..] == a[1..] + b;
      ToMotorAppend(a[1..], b, m);
    }
  }

  lemma {:induction false} ToMotorNone(calls: seq<MotorCall>, m: nat)
    requires forall k :: 0 <= k < |calls| ==> calls[k].motor != m
    ensures ToMotor(calls, m) == []
    decreases |calls|
  {
    if calls != [] {
      ToMotorNone(calls[1..], m);
    }
  }

  /** The M4 wrapper only ever addresses M4. */
  lemma {:induction false} Forward4OnlyM4(last: u32, fs: seq<u32>)
    ensures ToMotor(Forward4(last, fs).calls, MOTOR_M4) == Forward4(last, fs).calls
    decreases |fs|
  {
    if fs != [] {
      var s := TransmitMotor4Step(last, fs[0]);
      Forward4OnlyM4(s.last, fs[1..]);
      ToMotorAppend(s.calls, Forward4(s.last, fs[1..]).calls, MOTOR_M4);
      if s.calls != [] {
        assert s.calls[1..] == [];
      }
    }
  }

  /** The M1-M3 wrapper never addresses M4. */
  lemma {:induction false} Forward123NotM4(last: u32, fs: seq<u32>)
    ensures ToMotor(Forward123(last, fs).calls, MOTOR_M4) == []
    decreases |fs|
  {
    if fs != [] {
      var s := TransmitMotor123Step(last, fs[0]);
      Forward123NotM4(s.last, fs[1..]);
      ToMotorAppend(s.calls, Forward123(s.last, fs[1..]).calls, MOTOR_M4);
      ToMotorNone(s.calls, MOTOR_M4);
    }
  }

  /** A stream in progress with both engines holding a symbol, due to end at the same tick. */
  predicate InStream(d: Driver)
  {
    && DriverOk(d) && !d.params.updateModuleParams && d.params.transmit != 0 && d.stream
    && Holding(d.m123) && Holding(d.m4) && TicksLeft(d.m123) == TicksLeft(d.m4)
  }

  /** Ticks left until a held engine's message completes, after one tick that does not complete it. */
  lemma TicksLeftTick(e: Engine)
    requires Holding(e) && TicksLeft(e) > 1
    ensures Holding(TransmitStep(e).next) && TicksLeft(TransmitStep(e).next) == TicksLeft(e) - 1
  {
    HoldStep(e);
    var L, i, c := e.props.symbolLen, e.req.index, e.req.counter;
    if c + 1 == L {
      assert TicksLeft(e) == (SYMBOL_NO_IN_BYTE - 1 - i) * L + 1;
      assert i + 1 < SYMBOL_NO_IN_BYTE;
      var k := SYMBOL_NO_IN_BYTE - 1 - (i + 1);
      assert (k + 1) * L == k * L + L;
    }
  }

  /** During a stream a tick only ticks the two engines and forwards their values; the stream continues while both are busy. */
  lemma StreamTick(d: Driver)
    requires InStream(d)
    ensures var s := TransmitStep(d.m123);
      var t := TransmitStep(d.m4);
      var fs := Forward123(d.last123, s.calls);
      var ft := Forward4(d.last4, t.calls);
      var r := UpdateTransmissionStep(d);
      && r.calls == fs.calls + ft.calls
      && r.next.m4 == t.next && r.next.last4 == ft.last
      && (TicksLeft(d.m4) > 1 ==> InStream(r.next) && TicksLeft(r.next.m4) == TicksLeft(d.m4) - 1)
  {
    if TicksLeft(d.m4) > 1 {
      TicksLeftTick(d.m123);
      TicksLeftTick(d.m4);
    }
    assert CheckUpdateStep(d) == Tick(d, []);
    var t := TickEngines(d);
    assert AfterTick(t.next).calls == [];
    assert t.calls + [] == t.calls;
  }

  /** Over the ticks of a stream, motor M4 receives exactly what the M4 engine hands transmit_motor4. */
  lemma {:induction false} StreamRun(d: Driver, k: nat)
    requires InStream(d) && k <= TicksLeft(d.m4)
    ensures var r := DriverRun(d, k);
      && ToMotor(r.calls, MOTOR_M4) == Forward4(d.last4, Run(d.m4, k).calls).calls
      && r.final.m4 == Run(d.m4, k).final
    decreases k
  {
    if k > 0 {
      StreamTick(d);
      var u := UpdateTransmissionStep(d);
      var t := TransmitStep(d.m4);
      var fs := Forward123(d.last123, TransmitStep(d.m123).calls);
      var ft := Forward4(d.last4, t.calls);
      var rest := DriverRun(u.next, k - 1);
      if k > 1 {
        StreamRun(u.next, k - 1);
      }
      assert ToMotor(rest.calls, MOTOR_M4) == Forward4(ft.last, Run(t.next, k - 1).calls).calls;
      assert rest.final.m4 == Run(t.next, k - 1).final;
      ToMotorAppend(u.calls, rest.calls, MOTOR_M4);
      ToMotorAppend(fs.calls, ft.calls, MOTOR_M4);
      Forward123NotM4(d.last123, TransmitStep(d.m123).calls);
      Forward4OnlyM4(d.last4, t.calls);
      Forward4Append(d.last4, t.calls, Run(t.next, k - 1).calls);
      assert [] + ft.calls == ft.calls;
    }
  }

  /** The tick that starts a stream from two idle engines with the same symbol length. */
  lemma StreamStart(d: Driver)
    requires DriverOk(d) && !d.params.updateModuleParams && d.params.transmit != 0 && !d.stream
    requires !d.m123.req.isTransmitting && !d.m4.req.isTransmitting
    requires 1 <= d.m4.props.symbolLen <= 0x7F && d.m123.props.symbolLen == d.m4.props.symbolLen
    requires d.params.transmit != 1 || d.pause + 1 >= PauseTicks(d.params)
    ensures var p := PrepareAndTransmitStep(d.m4, HELLO[d.params.chosenCharB]);
      var fp := Forward4(d.last4, p.calls);
      var r := UpdateTransmissionStep(d);
      && InStream(r.next) && r.next.m4 == p.next && r.next.last4 == fp.last
      && ToMotor(r.calls, MOTOR_M4) == fp.calls
  {
    var a := PrepareAndTransmitStep(d.m123, HELLO[d.params.chosenCharA]);
    var p := PrepareAndTransmitStep(d.m4, HELLO[d.params.chosenCharB]);
    TransmitByteStarts(d.m123, HELLO[d.params.chosenCharA]);
    TransmitByteStarts(d.m4, HELLO[d.params.chosenCharB]);
    assert CheckUpdateStep(d) == Tick(d, []);
    var t := TickEngines(d);
    assert t.next.m123 == d.m123 && t.next.m4 == d.m4 && t.calls == [];
    var d1 := t.next.(pause := if d.params.transmit == 1 then 0 else d.pause);
    assert Starting(t.next);
    var st := StartStream(d1);
    assert UpdateTransmissionStep(d) == Tick(st.next, st.calls);
    var fa := Forward123(d.last123, a.calls);
    var fp := Forward4(d.last4, p.calls);
    assert st.calls == fa.calls + fp.calls;
    ToMotorAppend(fa.calls, fp.calls, MOTOR_M4);
    Forward123NotM4(d.last123, a.calls);
    Forward4OnlyM4(d.last4, p.calls);
    assert [] + fp.calls == fp.calls;
  }

  /**
   * A byte the driver starts reaches motor M4 complete: from two idle
   * engines with the same symbol length L <= 127, the tick that starts the
   * stream and the 8 * L ticks after it hand M4 exactly what the wrapper
   * makes of the byte's eight symbol frequencies followed by 0, and the
   * stream is over.
   */
  lemma DriverSendsByte(d: Driver)
    requires DriverOk(d) && !d.params.updateModuleParams && d.params.transmit != 0 && !d.stream
    requires !d.m123.req.isTransmitting && !d.m4.req.isTransmitting
    requires 1 <= d.m4.props.symbolLen <= 0x7F && d.m123.props.symbolLen == d.m4.props.symbolLen
    requires d.params.transmit != 1 || d.pause + 1 >= PauseTicks(d.params)
    ensures var n := 1 + SYMBOL_NO_IN_BYTE * d.m4.props.symbolLen;
      var r := DriverRun(d, n);
      && ToMotor(r.calls, MOTOR_M4)
         == Forward4(d.last4, Freqs(d.m4.props, Encode(HELLO[d.params.chosenCharB])) + [0]).calls
      && !r.final.m4.req.isTransmitting && !r.final.stream
  {
    var b := HELLO[d.params.chosenCharB];
    var n := SYMBOL_NO_IN_BYTE * d.m4.props.symbolLen;
    var p := PrepareAndTransmitStep(d.m4, b);
    var fp := Forward4(d.last4, p.calls);
    var t := Run(p.next, n);
    var u := UpdateTransmissionStep(d);
    var rest := DriverRun(u.next, n);
    assert InStream(u.next) && u.next.m4 == p.next && u.next.last4 == fp.last
      && ToMotor(u.calls, MOTOR_M4) == fp.calls by {
      StreamStart(d);
    }
    assert ToMotor(rest.calls, MOTOR_M4) == Forward4(fp.last, t.calls).calls && rest.final.m4 == t.final by {
      TransmitByteStarts(d.m4, b);
      StreamRun(u.next, n);
    }
    assert p.calls + t.calls == Freqs(d.m4.props, Encode(b)) + [0] && !t.final.req.isTransmitting by {
      TransmitByteEnds(d.m4, b);
    }
    assert DriverRun(d, 1 + n) == DriverTrace(rest.final, u.calls + rest.calls);
    ToMotorAppend(u.calls, rest.calls, MOTOR_M4);
    Forward4Append(d.last4, p.calls, t.calls);
  }

  // ---------------------------------------------------------------------
  // The driver as an object
  // ---------------------------------------------------------------------

  /** The static variables of motor_transmission.c, with the two engines they own. */
  class MotorTransmission {
    const m123: ModulationScheme
    const m4: ModulationScheme
    /** transmit_motor123's and transmit_motor4's `last_frequency`. */
    var last123: u32
    var last4: u32
    /** update_transmission's `pause`. */
    var pause: int
    var stream: bool
    var errorCode: byte
    var transmit: byte
    var chosenCharA: byte
    var chosenCharB: byte
    var symbolPause: u16
    var centerFreqA: u16
    var centerFreqB: u16
    var bandwidth: u16
    var symbolLength: u16
    var updateModuleParams: bool
    /** Every motorsSetFrequency call, oldest first. */
    var motorLog: seq<MotorCall>

    function Parameters(): Params
      reads this
    {
      Params(transmit, chosenCharA, chosenCharB, symbolPause, centerFreqA, centerFreqB, bandwidth, symbolLength, updateModuleParams)
    }

    function State(): Driver
      reads this, m123, m123.msg, m4, m4.msg
    {
      Driver(m123.State(), m4.State(), last123, last4, pause, stream, errorCode, Parameters())
    }

    ghost predicate Valid()
      reads this, m123, m123.msg, m4, m4.msg
    {
      && m123 != m4 && m123.msg != m4.msg
      && m123.Valid() && m4.Valid()
      && DriverOk(State())
    }

    /** Static initialisation followed by the two mod_create calls of motorTransmissionInit. */
    constructor ()
      ensures Valid() && State() == InitialDriver() && motorLog == []
    {
      var b := new ModulationScheme();
      b.Assign(CENTER_FREQ, BANDWIDTH, SYMBOL_LENGTH, TASK_PERIOD);
      var a := new ModulationScheme();
      a.Assign(CENTER_FREQ, BANDWIDTH, SYMBOL_LENGTH, TASK_PERIOD);
      m123, m4 := a, b;
      last123, last4 := 0, 0;
      pause, stream, errorCode := 0, false, 0;
      transmit, chosenCharA, chosenCharB, symbolPause := 0, 0, 1, SYMBOL_PAUSE;
      centerFreqA, centerFreqB, bandwidth, symbolLength := CENTER_FREQ, CENTER_FREQ, BANDWIDTH, SYMBOL_LENGTH;
      updateModuleParams := false;
      motorLog := [];
    }

    /** transmit_motor4. */
    method TransmitMotor4(frequency: u32)
      modifies this
      ensures var f := TransmitMotor4Step(old(last4), frequency);
        last4 == f.last && motorLog == old(motorLog) + f.calls
      ensures last123 == old(last123) && pause == old(pause) && stream == old(stream)
      ensures errorCode == old(errorCode) && Parameters() == old(Parameters())
    {
      if last4 != frequency {
        motorLog := motorLog + [MotorCall(MOTOR_M4, ToU16(frequency))];
        last4 := frequency;
      }
    }

    /** transmit_motor123. */
    method TransmitMotor123(frequency: u32)
      modifies this
      ensures var f := TransmitMotor123Step(old(last123), frequency);
        last123 == f.last && motorLog == old(motorLog) + f.calls
      ensures last4 == old(last4) && pause == old(pause) && stream == old(stream)
      ensures errorCode == old(errorCode) && Parameters() == old(Parameters())
    {
      if last123 != frequency {
        var f := ToU16(frequency);
        motorLog := motorLog + [MotorCall(MOTOR_M1, f)];
        motorLog := motorLog + [MotorCall(MOTOR_M2, f)];
        motorLog := motorLog + [MotorCall(MOTOR_M3, f)];
        last123 := frequency;
      }
    }

    /** Hands the value, if any, that the M1-M3 engine passed to transmit_func since its log had n entries to transmit_motor123. */
    method Deliver123(n: nat)
      requires n <= |m123.txLog| <= n + 1
      modifies this
      ensures var f := Forward123(old(last123), m123.txLog[n..]);
        last123 == f.last && motorLog == old(motorLog) + f.calls
      ensures last4 == old(last4) && pause == old(pause) && stream == old(stream)
      ensures errorCode == old(errorCode) && Parameters() == old(Parameters())
    {
      ForwardOne(last123, m123.txLog[n..]);
      if n < |m123.txLog| {
        TransmitMotor123(m123.txLog[n]);
      }
    }

    /** The same for the M4 engine and transmit_motor4. */
    method Deliver4(n: nat)
      requires n <= |m4.txLog| <= n + 1
      modifies this
      ensures var f := Forward4(old(last4), m4.txLog[n..]);
        last4 == f.last && motorLog == old(motorLog) + f.calls
      ensures last123 == old(last123) && pause == old(pause) && stream == old(stream)
      ensures errorCode == old(errorCode) && Parameters() == old(Parameters())
    {
      ForwardOne(last4, m4.txLog[n..]);
      if n < |m4.txLog| {
        TransmitMotor4(m4.txLog[n]);
      }
    }

    /** check_update_module_parameters. */
    method CheckUpdateModuleParameters()
      requires Valid()
      modifies this, m123, m123.msg, m4, m4.msg
      ensures Valid()
      ensures var c := CheckUpdateStep(old(State()));
        State() == c.next && motorLog == old(motorLog) + c.calls
    {
      if !updateModuleParams {
        return;
      }
      ghost var d := State();
      ghost var a := DestructStep(d.m123);
      ghost var b := DestructStep(d.m4);
      updateModuleParams := false;
      var n := |m123.txLog|;
      var _ := m123.Destruct();
      Deliver123(n);
      m123.Assign(centerFreqA, bandwidth, symbolLength, TASK_PERIOD);
      ghost var fa := Forward123(d.last123, a.calls);
      assert last123 == fa.last && motorLog == old(motorLog) + fa.calls;
      assert m4.State() == d.m4;
      n := |m4.txLog|;
      var _ := m4.Destruct();
      Deliver4(n);
      m4.Assign(centerFreqB, bandwidth, symbolLength, TASK_PERIOD);
      ghost var fb := Forward4(d.last4, b.calls);
      assert last4 == fb.last && motorLog == old(motorLog) + fa.calls + fb.calls;
      Assoc(old(motorLog), fa.calls, fb.calls);
    }

    /** The two mod_transmit calls of update_transmission. */
    method TickEnginesNow()
      requires Valid()
      modifies this, m123, m4
      ensures Valid()
      ensures var t := TickEngines(old(State()));
        State() == t.next && motorLog == old(motorLog) + t.calls
    {
      ghost var d := State();
      ghost var fs := Forward123(d.last123, TransmitStep(d.m123).calls);
      ghost var ft := Forward4(d.last4, TransmitStep(d.m4).calls);
      var n := |m123.txLog|;
      var _ := m123.Transmit();
      Deliver123(n);
      assert motorLog == old(motorLog) + fs.calls;
      n := |m4.txLog|;
      var _ := m4.Transmit();
      Deliver4(n);
      Assoc(old(motorLog), fs.calls, ft.calls);
    }

    /** The start of a stream in update_transmission. */
    method StartStreamNow()
      requires Valid()
      modifies this, m123, m123.msg, m4, m4.msg
      ensures Valid()
      ensures var t := StartStream(old(State()));
        State() == t.next && motorLog == old(motorLog) + t.calls
    {
      ghost var d := State();
      ghost var a := PrepareAndTransmitStep(d.m123, HELLO[d.params.chosenCharA]);
      ghost var b := PrepareAndTransmitStep(d.m4, HELLO[d.params.chosenCharB]);
      ghost var fa := Forward123(d.last123, a.calls);
      ghost var fb := Forward4(d.last4, b.calls);
      stream := true;
      var n := |m123.txLog|;
      var r := m123.PrepareAndTransmit(HELLO[chosenCharA]);
      errorCode := ToU8(r);
      Deliver123(n);
      assert m123.State() == a.next && last123 == fa.last && motorLog == old(motorLog) + fa.calls;
      n := |m4.txLog|;
      r := m4.PrepareAndTransmit(HELLO[chosenCharB]);
      errorCode := ToU8(r);
      Deliver4(n);
      assert m4.State() == b.next && last4 == fb.last && errorCode == ToU8(b.ret);
      Assoc(old(motorLog), fa.calls, fb.calls);
    }

    /** update_transmission. */
    method UpdateTransmission()
      requires Valid()
      modifies this, m123, m123.msg, m4, m4.msg
      ensures Valid()
      ensures var t := UpdateTransmissionStep(old(State()));
        State() == t.next && motorLog == old(motorLog) + t.calls
    {
      ghost var d := State();
      ghost var c := CheckUpdateStep(d);
      CheckUpdateModuleParameters();
      ghost var log1 := motorLog;
      ghost var t := TickEngines(c.next);
      TickEnginesNow();
      ghost var log2 := motorLog;
      ghost var a := AfterTick(t.next);
      FinishTick();
      UpdateTransmissionParts(d);
      assert log2 == old(motorLog) + c.calls + t.calls;
      Assoc(old(motorLog), c.calls, t.calls);
      Assoc(old(motorLog), c.calls + t.calls, a.calls);
    }

    /** update_transmission after the two mod_transmit calls: the pause gate, the start, and the end of a stream. */
    method FinishTick()
      requires Valid()
      modifies this, m123, m123.msg, m4, m4.msg
      ensures Valid()
      ensures var t := AfterTick(old(State()));
        State() == t.next && motorLog == old(motorLog) + t.calls
    {
      if transmit == 1 && !stream {
        pause := pause + 1;
        if pause >= PauseTicks(Parameters()) {
          pause := 0;
        } else {
          return;
        }
      }
      if transmit != 0 && !stream {
        StartStreamNow();
        return;
      }
      if transmit == 0 {
        stream := false;
      }
      if stream && !m123.IsTransmitting() {
        stream := false;
      }
      if stream && !m4.IsTransmitting() {
        stream := false;
      }
    }
  }
}
