/**
 * The ID beacon: a latched request turns the ID frequency on for the motors
 * named by a 4-bit bitmap, holds it for ID_BROADCAST_LENGTH further ticks
 * and then silences exactly the motors it turned on. A request that arrives
 * while a broadcast is in progress is dropped.
 *
 * The function-static state of updateIdingSound and the request flag are an
 * IdingState value; updateIdingSound is the pure step UpdateIdingSoundStep,
 * and the class MotorIding keeps the same variables as fields and is proved
 * to perform exactly that step.
 */
module MotorIding {
  import opened CInts
  import opened Motors

  /** ID_BROADCAST_LENGTH: the ticks after the start tick during which the tone is held. */
  const ID_BROADCAST_LENGTH: nat := 4
  /** DEFAULT_ID: the initial ID frequency. */
  const DEFAULT_ID: u32 := 16000
  /** DEFAULT_MOTORS_USED: bitmap 0001, motor 1 only. */
  const DEFAULT_MOTORS_USED: byte := 1

  /** broadcastId (the request flag) and the three statics of updateIdingSound. */
  datatype IdingState = IdingState(broadcastId: bool, broadcastingId: bool, count: byte, localMotorsUsed: byte)

  /** The state at start-up. */
  const INITIAL: IdingState := IdingState(false, false, 0, 0)

  /** Between broadcasts the count and the latched motors are 0; during one, 1 <= count <= ID_BROADCAST_LENGTH and only the low four bits can be latched. */
  predicate IdingInv(s: IdingState)
  {
    && s.localMotorsUsed < 16
    && (!s.broadcastingId ==> s.count == 0 && s.localMotorsUsed == 0)
    && (s.broadcastingId ==> 1 <= s.count <= ID_BROADCAST_LENGTH)
  }

  /** The calls of `for (i = 0; i < n; ++i) if (mask & (1 << i)) motorsSetFrequency(i, f);`. */
  function MaskCalls(mask: nat, f: nat, n: nat): (r: seq<MotorCall>)
    ensures |r| <= n
  {
    if n == 0 then []
    else MaskCalls(mask, f, n - 1) + (if Bit(mask, n - 1) then [MotorCall(n - 1, f)] else [])
  }

  /** The loop calls motor k, with f, exactly when k < n and bit k of mask is set, and calls the motors in increasing order, each at most once. */
  lemma {:induction false} MaskCallsExact(mask: nat, f: nat, n: nat)
    ensures var r := MaskCalls(mask, f, n);
      && (forall k :: 0 <= k < |r| ==> r[k].freq == f && r[k].motor < n && Bit(mask, r[k].motor))
      && (forall k :: 0 <= k < n ==> (Bit(mask, k) <==> MotorCall(k, f) in r))
      && (forall k :: 0 <= k < |r| - 1 ==> r[k].motor < r[k + 1].motor)
  {
    if n > 0 {
      MaskCallsExact(mask, f, n - 1);
    }
  }

  /**
   * The motors a bitmap names through `& 0x0F`: a motor is called exactly
   * when its bit is set in the bitmap, and only motors 0 to 3 are called.
   */
  lemma MaskedMotors(bitmap: byte, f: nat, k: nat)
    ensures MotorCall(k, f) in MaskCalls(bitmap % 16, f, NBR_OF_MOTORS) <==> k < NBR_OF_MOTORS && Bit(bitmap, k)
    ensures forall c :: c in MaskCalls(bitmap % 16, f, NBR_OF_MOTORS) ==> c.motor < NBR_OF_MOTORS && c.freq == f
  {
    LowNibbleBits(bitmap, k);
    MaskCallsExact(bitmap % 16, f, NBR_OF_MOTORS);
  }

  /** What one updateIdingSound call does: the state afterwards and the motor calls. */
  datatype IdingTick = IdingTick(next: IdingState, calls: seq<MotorCall>)

  /** updateIdingSound, given the current `frequency` and `motorsUsedBitmap`. */
  function UpdateIdingSoundStep(s: IdingState, frequency: u32, bitmap: byte): (r: IdingTick)
    ensures IdingInv(s) ==> IdingInv(r.next)
    ensures !r.next.broadcastId
  {
    if !s.broadcastId && !s.broadcastingId then IdingTick(s, [])
    else
      var started := s.broadcastId && !s.broadcastingId;
      var local := if started then bitmap % 16 else s.localMotorsUsed;
      var on := if started then MaskCalls(local, frequency, NBR_OF_MOTORS) else [];
      var count := ToU8(s.count as int + 1);
      if count <= ID_BROADCAST_LENGTH then IdingTick(IdingState(false, true, count, local), on)
      else IdingTick(IdingState(false, false, 0, 0), on + MaskCalls(local, 0, NBR_OF_MOTORS))
  }

  /** With no request and no broadcast in progress a tick changes nothing and calls no motor. */
  lemma IdleTick(s: IdingState, frequency: u32, bitmap: byte)
    requires !s.broadcastId && !s.broadcastingId
    ensures UpdateIdingSoundStep(s, frequency, bitmap) == IdingTick(s, [])
  {
  }

  /**
   * A request in an idle state is taken: the flag is cleared, the low four
   * bits of the bitmap are latched, `frequency` is set on exactly those
   * motors and the first tick of the broadcast is counted.
   */
  lemma StartTick(s: IdingState, frequency: u32, bitmap: byte)
    requires IdingInv(s) && s.broadcastId && !s.broadcastingId
    ensures var r := UpdateIdingSoundStep(s, frequency, bitmap);
      && r.next == IdingState(false, true, 1, bitmap % 16)
      && r.calls == MaskCalls(bitmap % 16, frequency, NBR_OF_MOTORS)
  {
  }

  /** A request during a broadcast is dropped: the tick is the same as without it. */
  lemma RequestWhileBusyDropped(s: IdingState, frequency: u32, bitmap: byte)
    requires IdingInv(s) && s.broadcastingId
    ensures UpdateIdingSoundStep(s.(broadcastId := true), frequency, bitmap) == UpdateIdingSoundStep(s.(broadcastId := false), frequency, bitmap)
  {
  }

  /** A tick while the tone is held only clears the request flag and counts: nothing restarts and no motor is called. */
  lemma HoldTick(s: IdingState, frequency: u32, bitmap: byte)
    requires IdingInv(s) && s.broadcastingId && s.count < ID_BROADCAST_LENGTH
    ensures UpdateIdingSoundStep(s, frequency, bitmap) == IdingTick(s.(broadcastId := false, count := s.count + 1), [])
  {
  }

  /**
   * The tick after the fourth held one ends the broadcast: the state returns
   * to idle and 0 is set on exactly the latched motors, whatever the bitmap
   * and the frequency are by then.
   */
  lemma StopTick(s: IdingState, frequency: u32, bitmap: byte)
    requires IdingInv(s) && s.broadcastingId && s.count == ID_BROADCAST_LENGTH
    ensures var r := UpdateIdingSoundStep(s, frequency, bitmap);
      && r.next == IdingState(false, false, 0, 0)
      && r.calls == MaskCalls(s.localMotorsUsed, 0, NBR_OF_MOTORS)
  {
  }

  /** What the environment does before one tick: maybe write 1 to the `broadcast_id` parameter, and the current `ID` and `motors_used_bitmap` parameters. */
  datatype Env = Env(request: bool, frequency: u32, bitmap: byte)

  datatype IdingTrace = IdingTrace(final: IdingState, calls: seq<MotorCall>)

  /** The ticks of a sequence of environments, in order. */
  function IdingRun(s: IdingState, envs: seq<Env>): IdingTrace
    decreases |envs|
  {
    if envs == [] then IdingTrace(s, [])
    else
      var e := envs[0];
      var t := UpdateIdingSoundStep(if e.request then s.(broadcastId := true) else s, e.frequency, e.bitmap);
      var r := IdingRun(t.next, envs[1..]);
      IdingTrace(r.final, t.calls + r.calls)
  }

  /** While the tone is held a tick only counts, whatever is requested or configured meanwhile. */
  lemma {:induction false} HoldRun(s: IdingState, envs: seq<Env>)
    requires IdingInv(s) && !s.broadcastId && s.broadcastingId && s.count + |envs| <= ID_BROADCAST_LENGTH
    ensures IdingRun(s, envs) == IdingTrace(s.(count := s.count + |envs|), [])
    decreases |envs|
  {
    if envs != [] {
      var e := envs[0];
      var s0 := if e.request then s.(broadcastId := true) else s;
      HoldTick(s0, e.frequency, e.bitmap);
      var s' := s.(count := s.count + 1);
      assert UpdateIdingSoundStep(s0, e.frequency, e.bitmap) == IdingTick(s', []);
      HoldRun(s', envs[1..]);
      assert IdingRun(s, envs).calls == [] + [];
    }
  }

  /**
   * A broadcast spans exactly ID_BROADCAST_LENGTH + 1 ticks, the start tick
   * included: a request in an idle state turns `frequency` on for the motors
   * of the bitmap of that tick, the next three ticks call nothing and drop
   * any request, and the fifth tick turns off exactly the same motors and
   * leaves the state idle, even if the bitmap has changed in between.
   */
  lemma BroadcastSpansFiveTicks(envs: seq<Env>)
    requires |envs| == ID_BROADCAST_LENGTH + 1 && envs[0].request
    ensures var mask := envs[0].bitmap % 16;
      IdingRun(INITIAL, envs) == IdingTrace(INITIAL,
        MaskCalls(mask, envs[0].frequency, NBR_OF_MOTORS) + MaskCalls(mask, 0, NBR_OF_MOTORS))
    ensures forall n :: 1 <= n <= ID_BROADCAST_LENGTH ==> IdingRun(INITIAL, envs[..n]).final.broadcastingId
  {
    BroadcastEnds(envs);
    forall n | 1 <= n <= ID_BROADCAST_LENGTH
      ensures IdingRun(INITIAL, envs[..n]).final.broadcastingId
    {
      BroadcastHolds(envs, n);
    }
  }

  /** The first tick of a run from the initial state with a request starts the broadcast. */
  lemma StartRun(envs: seq<Env>)
    requires |envs| >= 1 && envs[0].request
    ensures var mask := envs[0].bitmap % 16;
      var r := IdingRun(IdingState(false, true, 1, mask), envs[1..]);
      IdingRun(INITIAL, envs) == IdingTrace(r.final, MaskCalls(mask, envs[0].frequency, NBR_OF_MOTORS) + r.calls)
  {
    StartTick(INITIAL.(broadcastId := true), envs[0].frequency, envs[0].bitmap);
  }

  /** The tick after the fourth held one, as a run. */
  lemma StopRun(mask: byte, envs: seq<Env>)
    requires mask < 16 && |envs| == 1
    ensures IdingRun(IdingState(false, true, 4, mask), envs) == IdingTrace(INITIAL, MaskCalls(mask, 0, NBR_OF_MOTORS))
  {
    var s4 := IdingState(false, true, 4, mask);
    var e := envs[0];
    StopTick(if e.request then s4.(broadcastId := true) else s4, e.frequency, e.bitmap);
    assert envs[1..] == [];
    assert MaskCalls(mask, 0, NBR_OF_MOTORS) + [] == MaskCalls(mask, 0, NBR_OF_MOTORS);
  }

  /** The whole broadcast of BroadcastSpansFiveTicks: the tone on, three silent ticks, the tone off. */
  lemma BroadcastEnds(envs: seq<Env>)
    requires |envs| == ID_BROADCAST_LENGTH + 1 && envs[0].request
    ensures var mask := envs[0].bitmap % 16;
      IdingRun(INITIAL, envs) == IdingTrace(INITIAL,
        MaskCalls(mask, envs[0].frequency, NBR_OF_MOTORS) + MaskCalls(mask, 0, NBR_OF_MOTORS))
  {
    var mask := envs[0].bitmap % 16;
    var s1 := IdingState(false, true, 1, mask);
    StartRun(envs);
    HoldRun(s1, envs[1..4]);
    StopRun(mask, envs[4..]);
    RunSplit(s1, envs[1..4], envs[4..]);
    assert envs[1..] == envs[1..4] + envs[4..];
    assert [] + MaskCalls(mask, 0, NBR_OF_MOTORS) == MaskCalls(mask, 0, NBR_OF_MOTORS);
  }

  /** After the first n <= 4 ticks of BroadcastSpansFiveTicks the broadcast is still in progress. */
  lemma BroadcastHolds(envs: seq<Env>, n: nat)
    requires |envs| == ID_BROADCAST_LENGTH + 1 && envs[0].request && 1 <= n <= ID_BROADCAST_LENGTH
    ensures IdingRun(INITIAL, envs[..n]).final.broadcastingId
  {
    var mask := envs[0].bitmap % 16;
    StartRun(envs[..n]);
    HoldRun(IdingState(false, true, 1, mask), envs[1..n]);
    assert envs[..n][1..] == envs[1..n];
  }

  /** Running two sequences of environments one after the other is running their concatenation. */
  lemma {:induction false} RunSplit(s: IdingState, a: seq<Env>, b: seq<Env>)
    ensures var ra := IdingRun(s, a);
      var rb := IdingRun(ra.final, b);
      IdingRun(s, a + b) == IdingTrace(rb.final, ra.calls + rb.calls)
    decreases |a|
  {
    if a != [] {
      assert (a + b)[1..] == a[1..] + b && (a + b)[0] == a[0];
      var e := a[0];
      var t := UpdateIdingSoundStep(if e.request then s.(broadcastId := true) else s, e.frequency, e.bitmap);
      RunSplit(t.next, a[1..], b);
      var ra' := IdingRun(t.next, a[1..]);
      var rb := IdingRun(ra'.final, b);
      assert IdingRun(s, a + b) == IdingTrace(rb.final, t.calls + (ra'.calls + rb.calls));
      assert t.calls + (ra'.calls + rb.calls) == (t.calls + ra'.calls) + rb.calls;
    } else {
      assert a + b == b;
      assert [] + IdingRun(s, b).calls == IdingRun(s, b).calls;
    }
  }

  /** The module's variables: the three parameters and the statics of updateIdingSound. */
  class MotorIding {
    /** The `ID` parameter: the frequency that represents the ID. */
    var frequency: u32
    /** The `motors_used_bitmap` parameter. */
    var motorsUsedBitmap: byte
    /** The `broadcast_id` parameter: a request to broadcast. */
    var broadcastId: bool
    var broadcastingId: bool
    var broadcastingCount: byte
    var localMotorsUsed: byte
    /** Every motorsSetFrequency call, oldest first. */
    var motorLog: seq<MotorCall>

    function State(): IdingState
      reads this
    {
      IdingState(broadcastId, broadcastingId, broadcastingCount, localMotorsUsed)
    }

    /** Static initialisation. */
    constructor ()
      ensures State() == INITIAL && frequency == DEFAULT_ID && motorsUsedBitmap == DEFAULT_MOTORS_USED && motorLog == []
    {
      frequency := DEFAULT_ID;
      motorsUsedBitmap := DEFAULT_MOTORS_USED;
      broadcastId := false;
      broadcastingId := false;
      broadcastingCount := 0;
      localMotorsUsed := 0;
      motorLog := [];
    }

    /** updateIdingSound. */
    method UpdateIdingSound()
      modifies this
      ensures frequency == old(frequency) && motorsUsedBitmap == old(motorsUsedBitmap)
      ensures var r := UpdateIdingSoundStep(old(State()), frequency, motorsUsedBitmap);
        State() == r.next && motorLog == old(motorLog) + r.calls
    {
      if !broadcastId && !broadcastingId {
        return;
      }
      if broadcastId && !broadcastingId {
        broadcastId := false;
        broadcastingId := true;
        localMotorsUsed := motorsUsedBitmap % 16;
        SetMotors(localMotorsUsed, frequency);
      } else if broadcastId && broadcastingId {
        broadcastId := false;
      }
      if broadcastingId {
        broadcastingCount := ToU8(broadcastingCount as int + 1);
        if broadcastingCount <= ID_BROADCAST_LENGTH {
          return;
        }
        broadcastingId := false;
        broadcastingCount := 0;
        SetMotors(localMotorsUsed, 0);
        localMotorsUsed := 0;
      }
    }

    /** The motor loop: f on every motor whose bit is set in mask. */
    method SetMotors(mask: byte, f: nat)
      modifies this
      ensures motorLog == old(motorLog) + MaskCalls(mask, f, NBR_OF_MOTORS)
      ensures State() == old(State()) && frequency == old(frequency) && motorsUsedBitmap == old(motorsUsedBitmap)
    {
      for i := 0 to NBR_OF_MOTORS
        invariant motorLog == old(motorLog) + MaskCalls(mask, f, i)
        invariant State() == old(State()) && frequency == old(frequency) && motorsUsedBitmap == old(motorsUsedBitmap)
      {
        if Bit(mask, i) {
          motorLog := motorLog + [MotorCall(i, f)];
        }
      }
    }
  }
}
