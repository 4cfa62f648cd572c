/**
 * The multi-motor chirp broadcaster: a shared request starts, on each of the
 * four motors, a message of eight linear frequency sweeps, one per bit of a
 * byte, least significant bit first; a set bit is an up-chirp and a clear
 * bit a down-chirp, and consecutive chirps are separated by a short pause.
 * A motor is told a new frequency only when it differs from the last one it
 * was told.
 *
 * One channel's state is a Channel value and each C function is a pure step
 * on it; the class MotorChirp keeps the file's per-motor global arrays and is
 * proved to perform exactly those steps.
 */
module MotorChirp {
  import opened CInts
  import opened Motors
  import Modulation

  /** MSG_LENGTH: the chirps of one message. */
  const MSG_LENGTH: nat := 8
  /** PAUSE_LENGTH: the ticks a channel waits between two chirps. */
  const PAUSE_LENGTH: nat := 2
  /** SND_TASK_INTERVAL: the tick period in milliseconds. */
  const SND_TASK_INTERVAL: nat := 50

  /**
   * The integer results setupMessage derives from a MotorChirpParameters
   * entry: its centre frequency, the total frequency change of one chirp
   * (chirpSlope * chirpLen / 1000) and the change per tick
   * (chirpSlope * SND_TASK_INTERVAL / 1000), both stored into int16_t.
   */
  datatype ChirpParams = ChirpParams(centerFreq: u16, totalFChange: i16, dF: i16)

  /** _chirpParams' entries {13000, 500, 2000} and {15000, 500, 2000}: a 1000 Hz sweep in steps of 100 Hz. */
  const DEFAULT_CHIRP_PARAMS: seq<ChirpParams> :=
    [ChirpParams(13000, 1000, 100), ChirpParams(15000, 1000, 100),
     ChirpParams(13000, 1000, 100), ChirpParams(15000, 1000, 100)]

  /** The initial `message` of every motor. */
  const DEFAULT_MESSAGE: byte := 0xAA

  /** One entry of the _msgParams array. */
  datatype MsgParams = MsgParams(topF: u16, bottomF: u16, dF: u16, message: byte, msgCounter: byte)

  /** Everything the file keeps for one motor, index `id` of each per-motor array. */
  datatype Channel = Channel(
    msg: MsgParams, startFreq: u16, endFreq: u16, fStep: i16,
    lastFreq: u16, motorFreq: u16, inPause: bool, pauseTicks: byte, doingMsg: bool)

  /** A channel before anything ran: every field zero. */
  const ZERO_CHANNEL: Channel := Channel(MsgParams(0, 0, 0, 0, 0), 0, 0, 0, 0, 0, false, 0, false)

  /** C's `x / 2` on an int, which truncates toward zero. */
  function Half(x: int): (r: int)
    ensures 0 <= x ==> 0 <= r && 2 * r <= x < 2 * r + 2
    ensures x < 0 ==> r <= 0 && 2 * r - 2 < x <= 2 * r
  {
    if x >= 0 then x / 2 else -((-x) / 2)
  }

  /** setupNextChirp: the direction of the next chirp is bit msgCounter of the message. */
  function SetupNextChirpStep(c: Channel): (r: Channel)
    ensures r.pauseTicks == 0 && r.motorFreq == r.startFreq
    ensures r.msg == c.msg.(msgCounter := ToU8(c.msg.msgCounter as int + 1))
    ensures r.(msg := c.msg, startFreq := c.startFreq, endFreq := c.endFreq, fStep := c.fStep,
               motorFreq := c.motorFreq, pauseTicks := c.pauseTicks) == c
  {
    var isDownChirp := !Bit(c.msg.message, c.msg.msgCounter);
    var start := if isDownChirp then c.msg.topF else c.msg.bottomF;
    c.(pauseTicks := 0,
       startFreq := start,
       endFreq := if isDownChirp then c.msg.bottomF else c.msg.topF,
       fStep := if isDownChirp then ToI16(-(c.msg.dF as int)) else ToI16(c.msg.dF),
       motorFreq := start,
       msg := c.msg.(msgCounter := ToU8(c.msg.msgCounter as int + 1)))
  }

  /** A set bit gives an up-chirp from bottomF to topF, a clear bit a down-chirp from topF to bottomF, in steps of dF. */
  lemma ChirpDirection(c: Channel)
    requires c.msg.dF < 0x8000
    ensures var r := SetupNextChirpStep(c);
      && (Bit(c.msg.message, c.msg.msgCounter) ==>
            r.startFreq == c.msg.bottomF && r.endFreq == c.msg.topF && r.fStep == c.msg.dF)
      && (!Bit(c.msg.message, c.msg.msgCounter) ==>
            r.startFreq == c.msg.topF && r.endFreq == c.msg.bottomF && r.fStep == -(c.msg.dF as int))
  {
  }

  /** setupMessage: latches the message, restarts its chirp count and centres the band on centerFreq. */
  function SetupMessageStep(c: Channel, p: ChirpParams, message: byte): (r: Channel)
    ensures r.msg.message == message && r.msg.msgCounter == 0 && !r.inPause
    ensures r.(msg := c.msg, inPause := c.inPause) == c
    ensures 0 <= p.dF ==> r.msg.dF == p.dF
    ensures 0 <= p.totalFChange && p.totalFChange / 2 <= p.centerFreq
            && p.centerFreq + p.totalFChange / 2 < 0x1_0000 ==>
      && r.msg.bottomF <= p.centerFreq <= r.msg.topF
      && r.msg.bottomF + r.msg.topF == 2 * p.centerFreq
      && r.msg.topF - r.msg.bottomF == p.totalFChange - p.totalFChange % 2
  {
    var half := Half(p.totalFChange);
    c.(msg := MsgParams(ToU16(p.centerFreq + half), ToU16(p.centerFreq - half), ToU16(p.dF), message, 0),
       inPause := false)
  }

  /** The finish test of updateChirpFreq: the frequency has passed endFreq in the direction of the step. */
  predicate Finished(c: Channel)
  {
    (c.fStep < 0 && c.motorFreq < c.endFreq) || (c.fStep > 0 && c.motorFreq > c.endFreq)
  }

  /** What one updateChirpFreq call does: the channel afterwards, the shared requestChirp afterwards, and the motor calls. */
  datatype ChirpTick = ChirpTick(ch: Channel, request: bool, calls: seq<MotorCall>)

  /** The first part of updateChirpFreq: an idle channel that sees the request starts a message; only channel 3 clears the request. */
  function LatchStep(id: nat, c: Channel, request: bool, p: ChirpParams, message: byte): (r: ChirpTick)
    ensures r.calls == []
    ensures c.doingMsg || !request ==> r == ChirpTick(c, request, [])
    ensures !c.doingMsg && request ==>
      && r.ch.doingMsg && !r.ch.inPause && r.ch.msg.message == message && r.ch.msg.msgCounter == 1
      && r.ch.lastFreq == c.lastFreq
      && (r.request <==> id != 3)
  {
    if !c.doingMsg && request then
      var c1 := c.(doingMsg := true);
      ChirpTick(SetupNextChirpStep(SetupMessageStep(c1, p, message)), if id == 3 then false else request, [])
    else ChirpTick(c, request, [])
  }

  /** The second part: the motor is told motorFreq only when it differs from lastFreq. */
  function PushStep(id: nat, c: Channel): (r: ChirpTick)
    ensures r.ch == c.(lastFreq := c.motorFreq)
    ensures r.calls == if c.motorFreq != c.lastFreq then [MotorCall(id, c.motorFreq)] else []
  {
    if c.motorFreq != c.lastFreq then ChirpTick(c.(lastFreq := c.motorFreq), false, [MotorCall(id, c.motorFreq)])
    else ChirpTick(c, false, [])
  }

  /** The third part: a pause tick, or a chirp that ends, or one step of the sweep. */
  function ProgressStep(c: Channel): (r: Channel)
    ensures r.lastFreq == c.lastFreq
    ensures !c.doingMsg ==> r == c
  {
    if !c.doingMsg then c
    else if c.inPause && !(ToU8(c.pauseTicks as int + 1) > PAUSE_LENGTH) then c.(pauseTicks := ToU8(c.pauseTicks as int + 1))
    else
      var c1 := if c.inPause then SetupNextChirpStep(c.(pauseTicks := ToU8(c.pauseTicks as int + 1), inPause := false)) else c;
      if Finished(c1) then
        if c1.msg.msgCounter >= MSG_LENGTH then c1.(motorFreq := 0, doingMsg := false)
        else c1.(motorFreq := 0, inPause := true)
      else c1.(motorFreq := ToU16(c1.motorFreq as int + c1.fStep))
  }

  /** updateChirpFreq(id). */
  function UpdateChirpFreqStep(id: nat, c: Channel, request: bool, p: ChirpParams, message: byte): (r: ChirpTick)
    ensures var l := LatchStep(id, c, request, p, message).ch;
      && r.request == LatchStep(id, c, request, p, message).request
      && r.calls == (if l.motorFreq != l.lastFreq then [MotorCall(id, l.motorFreq)] else [])
      && r.ch.lastFreq == l.motorFreq
  {
    var l := LatchStep(id, c, request, p, message);
    var q := PushStep(id, l.ch);
    ChirpTick(ProgressStep(q.ch), l.request, q.calls)
  }

  // ---------------------------------------------------------------------
  // Properties of one channel
  // ---------------------------------------------------------------------

  /** A channel with a message in progress ignores the request and leaves it as it is, even channel 3. */
  lemma BusyChannelIgnoresRequest(id: nat, c: Channel, p: ChirpParams, message: byte)
    requires c.doingMsg
    ensures UpdateChirpFreqStep(id, c, true, p, message) == UpdateChirpFreqStep(id, c, false, p, message).(request := true)
  {
  }

  /** An idle channel without a request does nothing but push a pending frequency change. */
  lemma IdleChannelRests(id: nat, c: Channel, p: ChirpParams, message: byte)
    requires !c.doingMsg
    ensures var r := UpdateChirpFreqStep(id, c, false, p, message);
      r.ch == c.(lastFreq := c.motorFreq) && !r.request
  {
  }

  /**
   * An idle channel that sees the request pushes the start frequency of the
   * message's first chirp (bit 0 of the message) and takes the first step of
   * the sweep; only channel 3 clears the request.
   */
  lemma StartOfMessage(id: nat, c: Channel, p: ChirpParams, message: byte)
    requires !c.doingMsg && 0 <= p.dF
    requires 0 <= p.totalFChange && p.totalFChange / 2 <= p.centerFreq && p.centerFreq + p.totalFChange / 2 < 0x1_0000
    ensures var m := SetupMessageStep(c.(doingMsg := true), p, message).msg;
      var start := if Bit(message, 0) then m.bottomF else m.topF;
      var r := UpdateChirpFreqStep(id, c, true, p, message);
      && (r.request <==> id != 3)
      && r.ch.doingMsg && r.ch.msg.msgCounter == 1 && r.ch.msg.message == message
      && r.ch.startFreq == start && r.ch.lastFreq == start
      && r.calls == (if start != c.lastFreq then [MotorCall(id, start)] else [])
  {
  }

  /** The representation invariant of a channel inside a message: a chirp count between 1 and 8, and a pause only between chirps, at frequency 0. */
  predicate ChannelInv(c: Channel)
  {
    c.doingMsg ==>
      && 1 <= c.msg.msgCounter <= MSG_LENGTH
      && (c.inPause ==> c.msg.msgCounter < MSG_LENGTH && c.pauseTicks <= PAUSE_LENGTH && c.motorFreq == 0)
      && (!c.inPause ==> c.pauseTicks == 0)
  }

  /**
   * Every updateChirpFreq call keeps the invariant; inside a message the
   * chirp count goes up by one exactly at the tick that ends a pause and sets
   * up the next chirp, and a message ends only in the tick that finishes its
   * eighth chirp. Since a message starts with its first chirp set up, it
   * sends exactly MSG_LENGTH chirps.
   */
  lemma ChirpCount(id: nat, c: Channel, request: bool, p: ChirpParams, message: byte)
    requires ChannelInv(c)
    ensures var r := UpdateChirpFreqStep(id, c, request, p, message).ch;
      && ChannelInv(r)
      && (c.doingMsg ==>
            && r.msg.message == c.msg.message
            && (r.msg.msgCounter == c.msg.msgCounter + 1 <==> c.inPause && c.pauseTicks == PAUSE_LENGTH)
            && (r.msg.msgCounter == c.msg.msgCounter || r.msg.msgCounter == c.msg.msgCounter + 1)
            && (!r.doingMsg ==> r.msg.msgCounter == MSG_LENGTH))
  {
  }

  /** n ticks of one channel with no request pending. */
  datatype ChannelTrace = ChannelTrace(final: Channel, calls: seq<MotorCall>)

  function ChannelRun(id: nat, c: Channel, p: ChirpParams, message: byte, n: nat): ChannelTrace
    decreases n
  {
    if n == 0 then ChannelTrace(c, [])
    else
      var s := UpdateChirpFreqStep(id, c, false, p, message);
      var t := ChannelRun(id, s.ch, p, message, n - 1);
      ChannelTrace(t.final, s.calls + t.calls)
  }

  /** The frequencies an up-chirp pushes from f on: f, f + d, ... up to the first one above top. */
  function UpSweep(f: nat, d: nat, top: nat): (s: seq<nat>)
    requires d > 0
    ensures |s| >= 1 && s[0] == f
    decreases top + 1 - f
  {
    if f > top then [f] else [f] + UpSweep(f + d, d, top)
  }

  /** The frequencies a down-chirp pushes from f on: f, f - d, ... down to the first one below bottom. */
  function DownSweep(f: nat, d: nat, bottom: nat): (s: seq<nat>)
    requires 0 < d <= bottom
    ensures |s| >= 1 && s[0] == f
    decreases f + 1 - bottom
  {
    if f < bottom then [f] else [f] + DownSweep(f - d, d, bottom)
  }

  /** Each step of an up-chirp before the last climbs by d from a value at most top. */
  lemma {:induction false} UpSweepAt(f: nat, d: nat, top: nat, k: nat)
    requires d > 0 && k < |UpSweep(f, d, top)| - 1
    ensures var s := UpSweep(f, d, top); s[k + 1] == s[k] + d && s[k] <= top
    decreases k
  {
    var s := UpSweep(f, d, top);
    var t := UpSweep(f + d, d, top);
    assert s == [f] + t;
    if k > 0 {
      UpSweepAt(f + d, d, top, k - 1);
      assert s[k + 1] == t[k] && s[k] == t[k - 1];
    } else {
      assert s[1] == t[0];
    }
  }

  /** An up-chirp starting at or below top + d stops at a value in (top, top + d]. */
  lemma {:induction false} UpSweepLast(f: nat, d: nat, top: nat)
    requires d > 0 && f <= top + d
    ensures var s := UpSweep(f, d, top); top < s[|s| - 1] <= top + d
    decreases top + 1 - f
  {
    if f <= top {
      UpSweepLast(f + d, d, top);
      var s := UpSweep(f, d, top);
      var t := UpSweep(f + d, d, top);
      assert s == [f] + t;
      assert s[|s| - 1] == t[|t| - 1];
    }
  }

  /** An up-chirp starting at or below top + d climbs by d at every tick, stays at most top + d, and stops at the first value above top. */
  lemma UpSweepShape(f: nat, d: nat, top: nat)
    requires d > 0 && f <= top + d
    ensures var s := UpSweep(f, d, top);
      && (forall k :: 0 <= k < |s| - 1 ==> s[k + 1] == s[k] + d && s[k] <= top)
      && top < s[|s| - 1] <= top + d
  {
    var s := UpSweep(f, d, top);
    forall k | 0 <= k < |s| - 1
      ensures s[k + 1] == s[k] + d && s[k] <= top
    {
      UpSweepAt(f, d, top, k);
    }
    UpSweepLast(f, d, top);
  }

  /** Each step of a down-chirp before the last falls by d from a value at least bottom. */
  lemma {:induction false} DownSweepAt(f: nat, d: nat, bottom: nat, k: nat)
    requires 0 < d <= bottom && k < |DownSweep(f, d, bottom)| - 1
    ensures var s := DownSweep(f, d, bottom); s[k + 1] == s[k] - d && s[k] >= bottom
    decreases k
  {
    var s := DownSweep(f, d, bottom);
    var t := DownSweep(f - d, d, bottom);
    assert s == [f] + t;
    if k > 0 {
      DownSweepAt(f - d, d, bottom, k - 1);
      assert s[k + 1] == t[k] && s[k] == t[k - 1];
    } else {
      assert s[1] == t[0];
    }
  }

  /** A down-chirp starting at or above bottom - d stops at a value in [bottom - d, bottom). */
  lemma {:induction false} DownSweepLast(f: nat, d: nat, bottom: nat)
    requires 0 < d <= bottom && f + d >= bottom
    ensures var s := DownSweep(f, d, bottom); bottom - d <= s[|s| - 1] < bottom
    decreases f + 1 - bottom
  {
    if f >= bottom {
      DownSweepLast(f - d, d, bottom);
      var s := DownSweep(f, d, bottom);
      var t := DownSweep(f - d, d, bottom);
      assert s == [f] + t;
      assert s[|s| - 1] == t[|t| - 1];
    }
  }

  /** A down-chirp starting at or above bottom - d falls by d at every tick, stays at least bottom - d, and stops at the first value below bottom. */
  lemma DownSweepShape(f: nat, d: nat, bottom: nat)
    requires 0 < d <= bottom && f + d >= bottom
    ensures var s := DownSweep(f, d, bottom);
      && (forall k :: 0 <= k < |s| - 1 ==> s[k + 1] == s[k] - d && s[k] >= bottom)
      && bottom - d <= s[|s| - 1] < bottom
  {
    var s := DownSweep(f, d, bottom);
    forall k | 0 <= k < |s| - 1
      ensures s[k + 1] == s[k] - d && s[k] >= bottom
    {
      DownSweepAt(f, d, bottom, k);
    }
    DownSweepLast(f, d, bottom);
  }

  /** The motor calls of a sequence of frequencies on motor id. */
  function CallsOf(id: nat, fs: seq<nat>): (r: seq<MotorCall>)
    ensures |r| == |fs| && forall k :: 0 <= k < |fs| ==> r[k] == MotorCall(id, fs[k])
  {
    if fs == [] then [] else [MotorCall(id, fs[0])] + CallsOf(id, fs[1..])
  }

  /** A chirp in progress whose current frequency has not been pushed yet. */
  predicate Sweeping(c: Channel)
  {
    c.doingMsg && !c.inPause && ChannelInv(c) && c.motorFreq != c.lastFreq
  }

  /** An up-chirp in progress that cannot wrap past 65535. */
  predicate Climbing(c: Channel)
  {
    Sweeping(c) && 0 < c.fStep && c.endFreq + c.fStep < 0x1_0000 && c.motorFreq <= c.endFreq + c.fStep
  }

  /** A down-chirp in progress that cannot wrap below 0. */
  predicate Falling(c: Channel)
  {
    Sweeping(c) && c.fStep < 0 && -(c.fStep as int) <= c.endFreq && c.endFreq <= c.motorFreq - c.fStep
  }

  /** How a chirp leaves the channel: at frequency 0, pausing before the next chirp, or at the end of the message. */
  predicate ChirpDone(c: Channel, counter: nat)
  {
    && c.motorFreq == 0 && c.msg.msgCounter == counter
    && (c.doingMsg <==> counter < MSG_LENGTH) && (c.doingMsg ==> c.inPause && c.pauseTicks == 0)
  }

  /** The channel after one tick inside a sweep. */
  function Advance(c: Channel): Channel
  {
    c.(lastFreq := c.motorFreq, motorFreq := ToU16(c.motorFreq as int + c.fStep))
  }

  /** One tick inside a sweep pushes the current frequency and moves it by fStep, without wrapping. */
  lemma SweepTick(id: nat, c: Channel, p: ChirpParams, message: byte, n: nat)
    requires Climbing(c) || Falling(c)
    requires !Finished(c)
    ensures Advance(c).motorFreq == c.motorFreq + c.fStep
    ensures Climbing(c) ==> Climbing(Advance(c))
    ensures Falling(c) ==> Falling(Advance(c))
    ensures var t := ChannelRun(id, Advance(c), p, message, n);
      ChannelRun(id, c, p, message, n + 1) == ChannelTrace(t.final, [MotorCall(id, c.motorFreq)] + t.calls)
  {
    assert UpdateChirpFreqStep(id, c, false, p, message) == ChirpTick(Advance(c), false, [MotorCall(id, c.motorFreq)]);
  }

  /** The tick that ends a sweep pushes the last frequency and leaves the channel at 0. */
  lemma SweepEnd(id: nat, c: Channel, p: ChirpParams, message: byte)
    requires Sweeping(c) && Finished(c)
    ensures var t := ChannelRun(id, c, p, message, 1);
      && t.calls == [MotorCall(id, c.motorFreq)]
      && ChirpDone(t.final, c.msg.msgCounter)
  {
    var r := UpdateChirpFreqStep(id, c, false, p, message);
    assert r.calls == [MotorCall(id, c.motorFreq)] && ChirpDone(r.ch, c.msg.msgCounter);
    assert ChannelRun(id, c, p, message, 1) == ChannelTrace(r.ch, r.calls + []);
  }

  /**
   * An up-chirp pushes exactly the frequencies of UpSweep, one per tick, and
   * then leaves the channel at frequency 0, pausing or done.
   */
  lemma {:induction false} ClimbRun(id: nat, c: Channel, p: ChirpParams, message: byte)
    requires Climbing(c)
    ensures var s := UpSweep(c.motorFreq, c.fStep, c.endFreq);
      var t := ChannelRun(id, c, p, message, |s|);
      && t.calls == CallsOf(id, s)
      && ChirpDone(t.final, c.msg.msgCounter)
    decreases c.endFreq + 1 - c.motorFreq
  {
    var s := UpSweep(c.motorFreq, c.fStep, c.endFreq);
    if c.motorFreq > c.endFreq {
      SweepEnd(id, c, p, message);
      assert s == [c.motorFreq];
    } else {
      var c' := Advance(c);
      var s' := UpSweep(c'.motorFreq, c'.fStep, c'.endFreq);
      SweepTick(id, c, p, message, |s'|);
      ClimbRun(id, c', p, message);
      assert s == [c.motorFreq] + s';
      assert s[1..] == s';
    }
  }

  /** A down-chirp pushes exactly the frequencies of DownSweep, one per tick, and then leaves the channel at frequency 0. */
  lemma {:induction false} FallRun(id: nat, c: Channel, p: ChirpParams, message: byte)
    requires Falling(c)
    ensures var s := DownSweep(c.motorFreq, -(c.fStep as int), c.endFreq);
      var t := ChannelRun(id, c, p, message, |s|);
      && t.calls == CallsOf(id, s)
      && ChirpDone(t.final, c.msg.msgCounter)
    decreases c.motorFreq + 1 - c.endFreq
  {
    var s := DownSweep(c.motorFreq, -(c.fStep as int), c.endFreq);
    if c.motorFreq < c.endFreq {
      SweepEnd(id, c, p, message);
      assert s == [c.motorFreq];
    } else {
      var c' := Advance(c);
      var s' := DownSweep(c'.motorFreq, -(c'.fStep as int), c'.endFreq);
      SweepTick(id, c, p, message, |s'|);
      FallRun(id, c', p, message);
      assert s == [c.motorFreq] + s';
      assert s[1..] == s';
    }
  }

  /**
   * A pause lasts PAUSE_LENGTH + 1 ticks: in the first two only pauseTicks
   * counts (and the 0 of the finished chirp is pushed); in the third the next
   * chirp is set up and already moved one step, so its start frequency is
   * never pushed.
   */
  lemma PauseThenNextChirp(id: nat, c: Channel, p: ChirpParams, message: byte)
    requires c.doingMsg && c.inPause && ChannelInv(c) && c.pauseTicks == 0
    requires c.msg.bottomF <= c.msg.topF && c.msg.dF < 0x8000
    ensures var t := ChannelRun(id, c, p, message, 2);
      && t.final == c.(lastFreq := 0, pauseTicks := 2)
      && t.calls == (if c.lastFreq != 0 then [MotorCall(id, 0)] else [])
    ensures var t := ChannelRun(id, c, p, message, 3);
      var n := SetupNextChirpStep(c.(lastFreq := 0, inPause := false));
      && t.calls == (if c.lastFreq != 0 then [MotorCall(id, 0)] else [])
      && t.final == n.(motorFreq := ToU16(n.motorFreq as int + n.fStep))
  {
    var c1 := c.(lastFreq := 0, pauseTicks := 1);
    var c2 := c.(lastFreq := 0, pauseTicks := 2);
    assert UpdateChirpFreqStep(id, c, false, p, message).ch == c1;
    assert UpdateChirpFreqStep(id, c1, false, p, message) == ChirpTick(c2, false, []);
    var n := SetupNextChirpStep(c.(lastFreq := 0, inPause := false));
    assert n == SetupNextChirpStep(c2.(pauseTicks := 3, inPause := false));
    StartNotFinished(c.(lastFreq := 0, inPause := false));
    assert UpdateChirpFreqStep(id, c2, false, p, message) == ChirpTick(n.(motorFreq := ToU16(n.motorFreq as int + n.fStep)), false, []);
    assert ChannelRun(id, c2, p, message, 1).calls == [];
    assert ChannelRun(id, c1, p, message, 1).calls == [];
  }

  /** A freshly set-up chirp is not yet finished when its band is not inverted and its step fits an int16_t. */
  lemma StartNotFinished(c: Channel)
    requires c.msg.bottomF <= c.msg.topF && c.msg.dF < 0x8000
    ensures !Finished(SetupNextChirpStep(c))
  {
  }

  /**
   * A chirp set up in a band that needs no wrapping is a sweep in the
   * direction of its bit: an up-chirp ClimbRun applies to when the bit is
   * set, a down-chirp FallRun applies to when it is clear.
   */
  lemma SetupStartsSweep(c: Channel)
    requires c.doingMsg && c.msg.msgCounter < MSG_LENGTH
    requires 0 < c.msg.dF < 0x8000 && c.msg.dF <= c.msg.bottomF <= c.msg.topF && c.msg.topF + c.msg.dF < 0x1_0000
    ensures var n := SetupNextChirpStep(c.(inPause := false));
      n.motorFreq != n.lastFreq ==>
        && (Bit(c.msg.message, c.msg.msgCounter) ==> Climbing(n) && n.startFreq == c.msg.bottomF)
        && (!Bit(c.msg.message, c.msg.msgCounter) ==> Falling(n) && n.startFreq == c.msg.topF)
  {
  }

  /**
   * The chirps of a message follow the bits of the byte least significant
   * bit first, the opposite of the FSK engine's order: chirp k is an
   * up-chirp exactly when the FSK engine's symbol 7 - k is HIGH.
   */
  lemma ChirpOrderIsReversed(m: byte, k: nat)
    requires k < MSG_LENGTH
    ensures Bit(m, k) <==> Modulation.Encode(m)[Modulation.SYMBOL_NO_IN_BYTE - 1 - k] == Modulation.HIGH
  {
    Modulation.EncodeBits(m);
  }

  // ---------------------------------------------------------------------
  // All four channels
  // ---------------------------------------------------------------------

  /** What the loop of updateAllChirpsFreq has done after its first i iterations. */
  datatype AllTick = AllTick(chs: seq<Channel>, request: bool, calls: seq<MotorCall>)

  function UpdatePrefix(chs: seq<Channel>, request: bool, params: seq<ChirpParams>, messages: seq<byte>, i: nat): (r: AllTick)
    requires |chs| == |params| == |messages| == NBR_OF_MOTORS && i <= NBR_OF_MOTORS
    ensures |r.chs| == NBR_OF_MOTORS
    ensures forall j :: i <= j < NBR_OF_MOTORS ==> r.chs[j] == chs[j]
    decreases i
  {
    if i == 0 then AllTick(chs, request, [])
    else
      var q := UpdatePrefix(chs, request, params, messages, i - 1);
      var o := UpdateChirpFreqStep(i - 1, q.chs[i - 1], q.request, params[i - 1], messages[i - 1]);
      AllTick(q.chs[i - 1 := o.ch], o.request, q.calls + o.calls)
  }

  /** updateAllChirpsFreq: channels 0 to NBR_OF_MOTORS - 1, in that order. */
  function UpdateAllStep(chs: seq<Channel>, request: bool, params: seq<ChirpParams>, messages: seq<byte>): AllTick
    requires |chs| == |params| == |messages| == NBR_OF_MOTORS
  {
    UpdatePrefix(chs, request, params, messages, NBR_OF_MOTORS)
  }

  /** A request that finds all four channels idle starts all four, and channel 3 clears it. */
  lemma RequestStartsAllIdle(chs: seq<Channel>, params: seq<ChirpParams>, messages: seq<byte>)
    requires |chs| == |params| == |messages| == NBR_OF_MOTORS
    requires forall j :: 0 <= j < NBR_OF_MOTORS ==> !chs[j].doingMsg
    ensures var r := UpdateAllStep(chs, true, params, messages);
      && !r.request
      && forall j :: 0 <= j < NBR_OF_MOTORS ==> r.chs[j].doingMsg && r.chs[j].msg.message == messages[j]
  {
    var r1 := UpdatePrefix(chs, true, params, messages, 1);
    var r2 := UpdatePrefix(chs, true, params, messages, 2);
    var r3 := UpdatePrefix(chs, true, params, messages, 3);
    assert r1.request && r1.chs[0].doingMsg && r1.chs[0].msg.message == messages[0];
    assert r2.request && r2.chs[1].doingMsg && r2.chs[0] == r1.chs[0];
    assert r3.request && r3.chs[2].doingMsg && r3.chs[1] == r2.chs[1] && r3.chs[0] == r1.chs[0];
  }

  /** While channel 3 has a message in progress the request is never cleared, so every other channel restarts as soon as it goes idle. */
  lemma RequestOutlivesBusyChannel3(chs: seq<Channel>, params: seq<ChirpParams>, messages: seq<byte>)
    requires |chs| == |params| == |messages| == NBR_OF_MOTORS
    requires chs[3].doingMsg
    ensures var r := UpdateAllStep(chs, true, params, messages);
      && r.request
      && forall j :: 0 <= j < NBR_OF_MOTORS - 1 && !chs[j].doingMsg ==> r.chs[j].doingMsg
  {
    var r1 := UpdatePrefix(chs, true, params, messages, 1);
    var r2 := UpdatePrefix(chs, true, params, messages, 2);
    var r3 := UpdatePrefix(chs, true, params, messages, 3);
    assert r1.request && (!chs[0].doingMsg ==> r1.chs[0].doingMsg);
    assert r2.request && (!chs[1].doingMsg ==> r2.chs[1].doingMsg) && r2.chs[0] == r1.chs[0];
    assert r3.request && (!chs[2].doingMsg ==> r3.chs[2].doingMsg) && r3.chs[1] == r2.chs[1] && r3.chs[0] == r1.chs[0];
  }

  /** Channel i's calls all address motor i, and they come in channel order. */
  lemma {:induction false} CallsInMotorOrder(chs: seq<Channel>, request: bool, params: seq<ChirpParams>, messages: seq<byte>, i: nat)
    requires |chs| == |params| == |messages| == NBR_OF_MOTORS && i <= NBR_OF_MOTORS
    ensures var r := UpdatePrefix(chs, request, params, messages, i);
      && |r.calls| <= i
      && (forall k :: 0 <= k < |r.calls| ==> r.calls[k].motor < i)
      && (forall k :: 0 <= k < |r.calls| - 1 ==> r.calls[k].motor < r.calls[k + 1].motor)
    decreases i
  {
    if i > 0 {
      CallsInMotorOrder(chs, request, params, messages, i - 1);
      PrefixCalls(chs, request, params, messages, i);
      MotorOrderAppend(UpdatePrefix(chs, request, params, messages, i - 1).calls,
                       UpdatePrefix(chs, request, params, messages, i).calls, i);
    }
  }

  /** Calls in motor order below i - 1, followed by at most one call to motor i - 1, are in motor order below i. */
  lemma MotorOrderAppend(q: seq<MotorCall>, c: seq<MotorCall>, i: nat)
    requires 0 < i
    requires |q| <= i - 1 && (forall k :: 0 <= k < |q| ==> q[k].motor < i - 1)
    requires forall k :: 0 <= k < |q| - 1 ==> q[k].motor < q[k + 1].motor
    requires |q| <= |c| <= |q| + 1 && c[..|q|] == q
    requires forall k :: |q| <= k < |c| ==> c[k].motor == i - 1
    ensures |c| <= i && (forall k :: 0 <= k < |c| ==> c[k].motor < i)
    ensures forall k :: 0 <= k < |c| - 1 ==> c[k].motor < c[k + 1].motor
  {
    forall k | 0 <= k < |c|
      ensures c[k].motor < i
    {
      if k < |q| {
        assert c[k] == c[..|q|][k];
      }
    }
    forall k | 0 <= k < |c| - 1
      ensures c[k].motor < c[k + 1].motor
    {
      assert c[k] == c[..|q|][k];
      if k + 1 < |q| {
        assert c[k + 1] == c[..|q|][k + 1];
      }
    }
  }

  /** Iteration i - 1 of updateAllChirpsFreq appends at most one call, to motor i - 1. */
  lemma PrefixCalls(chs: seq<Channel>, request: bool, params: seq<ChirpParams>, messages: seq<byte>, i: nat)
    requires |chs| == |params| == |messages| == NBR_OF_MOTORS && 0 < i <= NBR_OF_MOTORS
    ensures var q := UpdatePrefix(chs, request, params, messages, i - 1).calls;
      var c := UpdatePrefix(chs, request, params, messages, i).calls;
      && |q| <= |c| <= |q| + 1 && c[..|q|] == q
      && forall k :: |q| <= k < |c| ==> c[k].motor == i - 1
  {
    var q := UpdatePrefix(chs, request, params, messages, i - 1);
    var o := UpdateChirpFreqStep(i - 1, q.chs[i - 1], q.request, params[i - 1], messages[i - 1]);
    assert UpdatePrefix(chs, request, params, messages, i).calls == q.calls + o.calls;
    assert |o.calls| <= 1 && forall k :: 0 <= k < |o.calls| ==> o.calls[k].motor == i - 1;
    AppendShape(q.calls, o.calls, i - 1);
  }

  /** Appending at most one call to motor m. */
  lemma AppendShape(q: seq<MotorCall>, o: seq<MotorCall>, m: nat)
    requires |o| <= 1 && forall k :: 0 <= k < |o| ==> o[k].motor == m
    ensures var c := q + o;
      && |q| <= |c| <= |q| + 1 && c[..|q|] == q
      && forall k :: |q| <= k < |c| ==> c[k].motor == m
  {
    var c := q + o;
    assert c[..|q|] == q;
    forall k | |q| <= k < |c|
      ensures c[k].motor == m
    {
      assert c[k] == o[k - |q|];
    }
  }

  // ---------------------------------------------------------------------
  // The per-motor arrays as an object
  // ---------------------------------------------------------------------

  /** The file's globals: the _msgParams array of structs, the per-motor arrays, the shared request and the parameters. */
  class MotorChirp {
    const msgParams: array<MsgParams>
    const startFreq: array<u16>
    const endFreq: array<u16>
    const fStep: array<i16>
    const lastFreq: array<u16>
    const motorFreq: array<u16>
    const inPause: array<bool>
    const pauseTicks: array<byte>
    const doingMsg: array<bool>
    var requestChirp: bool
    /** _chirpParams, as the integer parts setupMessage derives from it. */
    var chirpParams: seq<ChirpParams>
    var message: seq<byte>
    /** Every motorsSetFrequency call, oldest first. */
    var motorLog: seq<MotorCall>

    ghost predicate Valid()
      reads this
    {
      && msgParams.Length == startFreq.Length == endFreq.Length == fStep.Length == NBR_OF_MOTORS
      && lastFreq.Length == motorFreq.Length == inPause.Length == pauseTicks.Length == doingMsg.Length == NBR_OF_MOTORS
      && |chirpParams| == |message| == NBR_OF_MOTORS
      && startFreq != endFreq && startFreq != lastFreq && startFreq != motorFreq
      && endFreq != lastFreq && endFreq != motorFreq && lastFreq != motorFreq
      && inPause != doingMsg
    }

    /** Index id of every per-motor array. */
    function ChannelAt(id: nat): Channel
      requires Valid() && id < NBR_OF_MOTORS
      reads this, msgParams, startFreq, endFreq, fStep, lastFreq, motorFreq, inPause, pauseTicks, doingMsg
    {
      Channel(msgParams[id], startFreq[id], endFreq[id], fStep[id], lastFreq[id], motorFreq[id],
              inPause[id], pauseTicks[id], doingMsg[id])
    }

    function Channels(): (s: seq<Channel>)
      requires Valid()
      reads this, msgParams, startFreq, endFreq, fStep, lastFreq, motorFreq, inPause, pauseTicks, doingMsg
      ensures |s| == NBR_OF_MOTORS && forall j :: 0 <= j < NBR_OF_MOTORS ==> s[j] == ChannelAt(j)
    {
      [ChannelAt(0), ChannelAt(1), ChannelAt(2), ChannelAt(3)]
    }

    /** Static initialisation. */
    constructor ()
      ensures Valid() && !requestChirp && motorLog == []
      ensures chirpParams == DEFAULT_CHIRP_PARAMS && message == [DEFAULT_MESSAGE, DEFAULT_MESSAGE, DEFAULT_MESSAGE, DEFAULT_MESSAGE]
      ensures forall j :: 0 <= j < NBR_OF_MOTORS ==> ChannelAt(j) == ZERO_CHANNEL
    {
      msgParams := new MsgParams[NBR_OF_MOTORS](_ => MsgParams(0, 0, 0, 0, 0));
      startFreq := new u16[NBR_OF_MOTORS](_ => 0);
      endFreq := new u16[NBR_OF_MOTORS](_ => 0);
      fStep := new i16[NBR_OF_MOTORS](_ => 0);
      lastFreq := new u16[NBR_OF_MOTORS](_ => 0);
      motorFreq := new u16[NBR_OF_MOTORS](_ => 0);
      inPause := new bool[NBR_OF_MOTORS](_ => false);
      pauseTicks := new byte[NBR_OF_MOTORS](_ => 0);
      doingMsg := new bool[NBR_OF_MOTORS](_ => false);
      requestChirp := false;
      chirpParams := DEFAULT_CHIRP_PARAMS;
      message := [DEFAULT_MESSAGE, DEFAULT_MESSAGE, DEFAULT_MESSAGE, DEFAULT_MESSAGE];
      motorLog := [];
    }

    /** setupNextChirp(id). */
    method SetupNextChirp(id: nat)
      requires Valid() && id < NBR_OF_MOTORS
      modifies msgParams, startFreq, endFreq, fStep, motorFreq, pauseTicks
      ensures Valid() && ChannelAt(id) == SetupNextChirpStep(old(ChannelAt(id)))
      ensures forall j :: 0 <= j < NBR_OF_MOTORS && j != id ==> ChannelAt(j) == old(ChannelAt(j))
    {
      pauseTicks[id] := 0;
      var isDownChirp := !Bit(msgParams[id].message, msgParams[id].msgCounter);
      if isDownChirp {
        startFreq[id] := msgParams[id].topF;
        endFreq[id] := msgParams[id].bottomF;
        fStep[id] := ToI16(-(msgParams[id].dF as int));
      } else {
        startFreq[id] := msgParams[id].bottomF;
        endFreq[id] := msgParams[id].topF;
        fStep[id] := ToI16(msgParams[id].dF);
      }
      motorFreq[id] := startFreq[id];
      msgParams[id] := msgParams[id].(msgCounter := ToU8(msgParams[id].msgCounter as int + 1));
    }

    /** setupMessage(id). */
    method SetupMessage(id: nat)
      requires Valid() && id < NBR_OF_MOTORS
      modifies msgParams, inPause
      ensures Valid() && ChannelAt(id) == SetupMessageStep(old(ChannelAt(id)), chirpParams[id], message[id])
      ensures forall j :: 0 <= j < NBR_OF_MOTORS && j != id ==> ChannelAt(j) == old(ChannelAt(j))
    {
      var p := chirpParams[id];
      var totalFChange := p.totalFChange;
      var dF := ToU16(p.dF);
      var bottomF := ToU16(p.centerFreq - Half(totalFChange));
      var topF := ToU16(p.centerFreq + Half(totalFChange));
      msgParams[id] := MsgParams(topF, bottomF, dF, message[id], 0);
      inPause[id] := false;
    }

    /** updateChirpFreq(id). */
    method UpdateChirpFreq(id: nat)
      requires Valid() && id < NBR_OF_MOTORS
      modifies this, msgParams, startFreq, endFreq, fStep, lastFreq, motorFreq, inPause, pauseTicks, doingMsg
      ensures Valid() && chirpParams == old(chirpParams) && message == old(message)
      ensures var r := UpdateChirpFreqStep(id, old(ChannelAt(id)), old(requestChirp), chirpParams[id], message[id]);
        Channels() == old(Channels())[id := r.ch] && requestChirp == r.request && motorLog == old(motorLog) + r.calls
    {
      Latch(id);
      Push(id);
      Progress(id);
    }

    /** The start of updateChirpFreq: an idle channel that sees the request starts a message. */
    method Latch(id: nat)
      requires Valid() && id < NBR_OF_MOTORS
      modifies this, msgParams, startFreq, endFreq, fStep, motorFreq, inPause, pauseTicks, doingMsg
      ensures Valid() && chirpParams == old(chirpParams) && message == old(message) && motorLog == old(motorLog)
      ensures var r := LatchStep(id, old(ChannelAt(id)), old(requestChirp), chirpParams[id], message[id]);
        ChannelAt(id) == r.ch && requestChirp == r.request
      ensures forall j :: 0 <= j < NBR_OF_MOTORS && j != id ==> ChannelAt(j) == old(ChannelAt(j))
    {
      if !doingMsg[id] && requestChirp {
        doingMsg[id] := true;
        if id == 3 {
          requestChirp := false;
        }
        SetupMessage(id);
        SetupNextChirp(id);
      }
    }

    /** The push of updateChirpFreq: motorsSetFrequency only on a change. */
    method Push(id: nat)
      requires Valid() && id < NBR_OF_MOTORS
      modifies this, lastFreq
      ensures Valid() && chirpParams == old(chirpParams) && message == old(message) && requestChirp == old(requestChirp)
      ensures var r := PushStep(id, old(ChannelAt(id)));
        ChannelAt(id) == r.ch && motorLog == old(motorLog) + r.calls
      ensures forall j :: 0 <= j < NBR_OF_MOTORS && j != id ==> ChannelAt(j) == old(ChannelAt(j))
    {
      if motorFreq[id] != lastFreq[id] {
        motorLog := motorLog + [MotorCall(id, motorFreq[id])];
        lastFreq[id] := motorFreq[id];
      }
    }

    /** The rest of updateChirpFreq: a pause tick, or the end of a chirp, or one step. */
    method Progress(id: nat)
      requires Valid() && id < NBR_OF_MOTORS
      modifies msgParams, startFreq, endFreq, fStep, motorFreq, inPause, pauseTicks, doingMsg
      ensures Valid() && ChannelAt(id) == ProgressStep(old(ChannelAt(id)))
      ensures forall j :: 0 <= j < NBR_OF_MOTORS && j != id ==> ChannelAt(j) == old(ChannelAt(j))
    {
      ghost var c := ChannelAt(id);
      if doingMsg[id] {
        if inPause[id] {
          var ended := EndPauseTick(id);
          if !ended {
            return;
          }
        }
        ghost var c1 := ChannelAt(id);
        assert c1 == if c.inPause then SetupNextChirpStep(c.(pauseTicks := ToU8(c.pauseTicks as int + 1), inPause := false)) else c;
        StepChirp(id);
      }
    }

    /** A pause tick: counts it and, once the pause is over, sets up the next chirp. */
    method EndPauseTick(id: nat) returns (ended: bool)
      requires Valid() && id < NBR_OF_MOTORS
      modifies msgParams, startFreq, endFreq, fStep, motorFreq, inPause, pauseTicks
      ensures Valid()
      ensures var c := old(ChannelAt(id)).(pauseTicks := ToU8(old(pauseTicks[id]) as int + 1));
        && (ended <==> c.pauseTicks > PAUSE_LENGTH)
        && ChannelAt(id) == if ended then SetupNextChirpStep(c.(inPause := false)) else c
      ensures forall j :: 0 <= j < NBR_OF_MOTORS && j != id ==> ChannelAt(j) == old(ChannelAt(j))
    {
      pauseTicks[id] := ToU8(pauseTicks[id] as int + 1);
      ended := pauseTicks[id] > PAUSE_LENGTH;
      if ended {
        inPause[id] := false;
        SetupNextChirp(id);
      }
    }

    /** The chirp itself: its end, or one step of the sweep. */
    method StepChirp(id: nat)
      requires Valid() && id < NBR_OF_MOTORS
      modifies motorFreq, inPause, doingMsg
      ensures Valid()
      ensures var c := old(ChannelAt(id));
        ChannelAt(id) ==
          if !Finished(c) then c.(motorFreq := ToU16(c.motorFreq as int + c.fStep))
          else if c.msg.msgCounter >= MSG_LENGTH then c.(motorFreq := 0, doingMsg := false)
          else c.(motorFreq := 0, inPause := true)
      ensures forall j :: 0 <= j < NBR_OF_MOTORS && j != id ==> ChannelAt(j) == old(ChannelAt(j))
    {
      var finished := (fStep[id] < 0 && motorFreq[id] < endFreq[id]) || (fStep[id] > 0 && motorFreq[id] > endFreq[id]);
      if finished {
        motorFreq[id] := 0;
        if msgParams[id].msgCounter >= MSG_LENGTH {
          doingMsg[id] := false;
        } else {
          inPause[id] := true;
        }
      } else {
        motorFreq[id] := ToU16(motorFreq[id] as int + fStep[id]);
      }
    }

    /** updateAllChirpsFreq. */
    method UpdateAllChirpsFreq()
      requires Valid()
      modifies this, msgParams, startFreq, endFreq, fStep, lastFreq, motorFreq, inPause, pauseTicks, doingMsg
      ensures Valid() && chirpParams == old(chirpParams) && message == old(message)
      ensures var r := UpdateAllStep(old(Channels()), old(requestChirp), chirpParams, message);
        Channels() == r.chs && requestChirp == r.request && motorLog == old(motorLog) + r.calls
    {
      ghost var chs := Channels();
      ghost var req := requestChirp;
      for i := 0 to NBR_OF_MOTORS
        invariant Valid() && chirpParams == old(chirpParams) && message == old(message)
        invariant var r := UpdatePrefix(chs, req, chirpParams, message, i);
          Channels() == r.chs && requestChirp == r.request && motorLog == old(motorLog) + r.calls
      {
        ghost var q := UpdatePrefix(chs, req, chirpParams, message, i);
        ghost var log0 := motorLog;
        UpdateChirpFreq(i);
        ghost var o := UpdateChirpFreqStep(i, q.chs[i], q.request, chirpParams[i], message[i]);
        assert motorLog == log0 + o.calls;
        AppendAssoc(old(motorLog), q.calls, o.calls);
      }
    }
  }

  /** Proof aid: concatenation of call logs is associative. */
  lemma AppendAssoc(a: seq<MotorCall>, b: seq<MotorCall>, c: seq<MotorCall>)
    ensures a + b + c == a + (b + c)
  {
  }
}
