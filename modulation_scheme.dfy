/**
 * The binary frequency-shift-keying engine: a byte is split into eight
 * LOW/HIGH symbols, most significant bit first, and each symbol is held on
 * the actuator for `symbolLen` ticks of the periodic task.
 *
 * The engine is specified by pure step functions over an Engine value (one
 * per C function); the class ModulationScheme holds the same fields as the C
 * struct and each of its methods is proved to perform exactly that step.
 * `transmit_func` is not called: every value passed to it is returned (by
 * the step functions) or appended to `txLog` (by the class).
 */
module Modulation {
  import opened CInts

  /** enum kModSymbols: a constant low tone (0x00) or a constant high tone (0x01). */
  datatype Symbol = LOW | HIGH

  /** The enumerator value of a symbol. */
  function SymbolCode(s: Symbol): nat
  {
    match s
    case LOW => 0
    case HIGH => 1
  }

  /** SYMBOL_NO_IN_BYTE: a byte is sent as one symbol per bit. */
  const SYMBOL_NO_IN_BYTE: nat := 8

  function SymbolOf(bit: bool): Symbol
  {
    if bit then HIGH else LOW
  }

  // ---------------------------------------------------------------------
  // conv_to_symbols
  // ---------------------------------------------------------------------

  /** The n low bits of m as symbols, most significant bit first. */
  function MsbFirst(m: nat, n: nat): (s: seq<Symbol>)
    ensures |s| == n
  {
    if n == 0 then [] else MsbFirst(m / 2, n - 1) + [SymbolOf(m % 2 == 1)]
  }

  /** The eight symbols conv_to_symbols writes for the byte m. */
  function Encode(m: byte): seq<Symbol>
  {
    MsbFirst(m, SYMBOL_NO_IN_BYTE)
  }

  /** Reads symbols back as a number, the first symbol being the most significant bit. */
  function DecodeMsb(s: seq<Symbol>): nat
  {
    if s == [] then 0 else 2 * DecodeMsb(s[..|s| - 1]) + SymbolCode(s[|s| - 1])
  }

  /** Symbol i of MsbFirst(m, n) stands for bit n-1-i of m. */
  lemma {:induction false} MsbFirstAt(m: nat, n: nat, i: nat)
    requires i < n
    ensures MsbFirst(m, n)[i] == SymbolOf(Bit(m, n - 1 - i))
    decreases n
  {
    if i < n - 1 {
      MsbFirstAt(m / 2, n - 1, i);
    }
  }

  /** conv_to_symbols sets msg[i] to HIGH exactly when bit 7-i of m is set. */
  lemma EncodeBits(m: byte)
    ensures |Encode(m)| == SYMBOL_NO_IN_BYTE
    ensures forall i :: 0 <= i < SYMBOL_NO_IN_BYTE ==> (Encode(m)[i] == HIGH <==> Bit(m, 7 - i))
  {
    forall i | 0 <= i < SYMBOL_NO_IN_BYTE
      ensures Encode(m)[i] == HIGH <==> Bit(m, 7 - i)
    {
      MsbFirstAt(m, SYMBOL_NO_IN_BYTE, i);
    }
  }

  /** The example in the documentation of conv_to_symbols. */
  lemma EncodeExample()
    ensures Encode(0xC6) == [HIGH, HIGH, LOW, LOW, LOW, HIGH, HIGH, LOW]
  {
  }

  lemma {:induction false} DecodeMsbFirst(m: nat, n: nat)
    requires m < Pow2(n)
    ensures DecodeMsb(MsbFirst(m, n)) == m
    decreases n
  {
    if n > 0 {
      var s := MsbFirst(m, n);
      assert s[..|s| - 1] == MsbFirst(m / 2, n - 1);
      assert m / 2 < Pow2(n - 1) by {
        assert Pow2(n) == 2 * Pow2(n - 1);
      }
      DecodeMsbFirst(m / 2, n - 1);
      assert SymbolCode(s[|s| - 1]) == m % 2;
      assert m == 2 * (m / 2) + m % 2;
    }
  }

  lemma {:induction false} MsbFirstDecode(s: seq<Symbol>)
    ensures DecodeMsb(s) < Pow2(|s|)
    ensures MsbFirst(DecodeMsb(s), |s|) == s
    decreases |s|
  {
    if s != [] {
      var init := s[..|s| - 1];
      MsbFirstDecode(init);
      assert init + [s[|s| - 1]] == s;
      var v := DecodeMsb(s);
      assert v / 2 == DecodeMsb(init) && (v % 2 == 1 <==> s[|s| - 1] == HIGH);
    }
  }

  /** Decoding the symbols most significant bit first gives the byte back. */
  lemma DecodeEncode(m: byte)
    ensures DecodeMsb(Encode(m)) == m
  {
    assert Pow2(SYMBOL_NO_IN_BYTE) == 0x100;
    DecodeMsbFirst(m, SYMBOL_NO_IN_BYTE);
  }

  /** Every sequence of eight symbols is the encoding of exactly one byte. */
  lemma EncodeDecode(s: seq<Symbol>)
    requires |s| == SYMBOL_NO_IN_BYTE
    ensures DecodeMsb(s) < 0x100 && Encode(DecodeMsb(s)) == s
  {
    assert Pow2(SYMBOL_NO_IN_BYTE) == 0x100;
    MsbFirstDecode(s);
  }

  /** conv_to_symbols: fills the eight-element buffer msg with the symbols of m. */
  method ConvToSymbols(msg: array<Symbol>, m: byte)
    requires msg.Length == SYMBOL_NO_IN_BYTE
    modifies msg
    ensures msg[..] == Encode(m)
  {
    for i := 0 to SYMBOL_NO_IN_BYTE
      invariant forall j :: 0 <= j < i ==> msg[j] == SymbolOf(Bit(m, SYMBOL_NO_IN_BYTE - 1 - j))
    {
      // m_mask = 0x01 << (SYMBOL_NO_IN_BYTE - 1 - i)
      if Bit(m, SYMBOL_NO_IN_BYTE - 1 - i) {
        msg[i] := HIGH;
      } else {
        msg[i] := LOW;
      }
    }
    forall j | 0 <= j < SYMBOL_NO_IN_BYTE
      ensures msg[j] == Encode(m)[j]
    {
      MsbFirstAt(m, SYMBOL_NO_IN_BYTE, j);
    }
  }

  // ---------------------------------------------------------------------
  // The engine as a value
  // ---------------------------------------------------------------------

  /** struct ModProps without transmit_func. */
  datatype Props = Props(lowFreq: u32, highFreq: u32, symbolLen: u16)

  /** struct ModSendRequest. */
  datatype SendReq = SendReq(isTransmitting: bool, msg: seq<Symbol>, index: byte, counter: i8, currFreq: u32)

  /** struct ModulationScheme. */
  datatype Engine = Engine(props: Props, req: SendReq)

  /** What one call does: the engine afterwards, the C return value, and the values passed to transmit_func, in order. */
  datatype Outcome<R> = Outcome(next: Engine, ret: R, calls: seq<u32>)

  /** The representation invariant: eight symbols, and an in-flight message always points at one of them. */
  predicate Consistent(e: Engine)
  {
    |e.req.msg| == SYMBOL_NO_IN_BYTE && (e.req.isTransmitting ==> e.req.index < SYMBOL_NO_IN_BYTE)
  }

  /** The frequency try_tx_current_symbol commands for a symbol. */
  function SymbolFreq(p: Props, s: Symbol): u32
  {
    if s == LOW then p.lowFreq else p.highFreq
  }

  /** A statically allocated struct ModulationScheme before mod_create: all fields zero. */
  function Zeroed(): (e: Engine)
    ensures Consistent(e) && !e.req.isTransmitting
  {
    Engine(Props(0, 0, 0), SendReq(false, seq(SYMBOL_NO_IN_BYTE, _ => LOW), 0, 0, 0))
  }

  /** divide_and_ceil: the least multiple count of y that covers x. */
  function DivideAndCeil(x: nat, y: nat): (r: nat)
    requires y > 0
    ensures x <= r * y < x + y
  {
    if x % y != 0 then x / y + 1 else x / y
  }

  /** Below the uint16 limit of symbol_len, the tick count of divide_and_ceil fits. */
  lemma CeilFits(x: nat, y: nat, r: nat)
    requires y > 0 && r * y < x + y
    ensures x <= 0xFFFF * y ==> r < 0x1_0000
  {
    if x <= 0xFFFF * y {
      assert r * y - 0x1_0000 * y == (r - 0x1_0000) * y;
    }
  }

  /** mod_create: the band is centred on centerFreq, symbolLen counts the ticks that cover one symbol, the send state is idle and zeroed. */
  function Create(centerFreq: u32, bandwidth: u32, symbolLengthMs: u32, taskPeriodMs: u32): (e: Engine)
    requires taskPeriodMs > 0
    ensures Consistent(e) && !e.req.isTransmitting
    ensures e.req == Zeroed().req
    ensures bandwidth / 2 <= centerFreq && centerFreq + bandwidth / 2 < 0x1_0000_0000 ==>
      e.props.lowFreq + e.props.highFreq == 2 * centerFreq && e.props.highFreq - e.props.lowFreq == bandwidth - bandwidth % 2
    ensures symbolLengthMs <= 0xFFFF * taskPeriodMs ==>
      symbolLengthMs <= e.props.symbolLen * taskPeriodMs < symbolLengthMs + taskPeriodMs
  {
    var ticks := DivideAndCeil(symbolLengthMs, taskPeriodMs);
    CeilFits(symbolLengthMs, taskPeriodMs, ticks);
    Engine(Props(ToU32(centerFreq - bandwidth / 2), ToU32(centerFreq + bandwidth / 2), ToU16(ticks)), Zeroed().req)
  }

  /** try_tx_current_symbol: commands the frequency of the symbol at `index` and restarts the symbol's tick counter. */
  function TryTxStep(e: Engine): (r: Outcome<int>)
    requires Consistent(e)
    ensures r.ret in {-1, -2, 0}
    ensures r.ret == -1 <==> !e.req.isTransmitting
    ensures r.ret == 0 ==>
      r.next == e.(req := e.req.(counter := 0, currFreq := SymbolFreq(e.props, e.req.msg[e.req.index])))
      && r.calls == [r.next.req.currFreq]
    ensures r.ret != 0 ==> r.next == e && r.calls == []
    ensures e.req.isTransmitting ==> r.ret == 0
    ensures |r.calls| <= 1
  {
    if !e.req.isTransmitting then Outcome(e, -1, [])
    else if e.req.index >= SYMBOL_NO_IN_BYTE then Outcome(e, -2, [])
    else
      var f := SymbolFreq(e.props, e.req.msg[e.req.index]);
      Outcome(e.(req := e.req.(counter := 0, currFreq := f)), 0, [f])
  }

  /** mod_prepare_and_transmit. */
  function PrepareAndTransmitStep(e: Engine, m: byte): (r: Outcome<int>)
    requires Consistent(e)
    ensures Consistent(r.next) && r.next.props == e.props
    ensures r.ret == -1 <==> e.req.isTransmitting
    ensures r.ret == -1 ==> r.next == e && r.calls == []
    ensures r.ret != -1 ==>
      && r.ret == 0
      && r.next.req == SendReq(true, Encode(m), 0, 0, SymbolFreq(e.props, Encode(m)[0]))
      && r.calls == [r.next.req.currFreq]
    ensures |r.calls| <= 1
  {
    if e.req.isTransmitting then Outcome(e, -1, [])
    else
      var started := e.(req := e.req.(index := 0, msg := Encode(m), isTransmitting := true));
      var t := TryTxStep(started);
      Outcome(t.next, 0, t.calls)
  }

  /** mod_transmit: one tick of the periodic task. */
  function TransmitStep(e: Engine): (r: Outcome<int>)
    requires Consistent(e)
    ensures Consistent(r.next) && r.next.props == e.props && r.next.req.msg == e.req.msg
    ensures r.ret in {-1, 0, 1}
    ensures r.ret == -1 <==> !e.req.isTransmitting
    ensures r.ret == -1 ==> r.next == e
    ensures r.ret == 0 ==> r.next.req.isTransmitting && r.next.req.index == e.req.index
    ensures r.calls != [] <==> r.ret == 1
    ensures r.ret == 1 && r.next.req.isTransmitting ==>
      r.next.req.index == e.req.index + 1 && r.next.req.counter == 0
      && r.calls == [SymbolFreq(e.props, e.req.msg[r.next.req.index])]
    ensures r.ret == 1 && !r.next.req.isTransmitting ==>
      e.req.index == SYMBOL_NO_IN_BYTE - 1 && r.calls == [0]
    ensures e.req.isTransmitting ==> (r.ret == 0 <==> ToI8(e.req.counter + 1) < e.props.symbolLen)
    ensures r.ret == 0 ==> r.next == e.(req := e.req.(counter := ToI8(e.req.counter + 1)))
    ensures r.ret == 1 ==> (r.next.req.isTransmitting <==> e.req.index + 1 < SYMBOL_NO_IN_BYTE)
    ensures r.ret == 1 && r.next.req.isTransmitting ==>
      r.next == e.(req := e.req.(index := e.req.index + 1, counter := 0,
                                 currFreq := SymbolFreq(e.props, e.req.msg[e.req.index + 1])))
    ensures |r.calls| <= 1
  {
    if !e.req.isTransmitting then Outcome(e, -1, [])
    else
      var counter := ToI8(e.req.counter + 1);
      if counter < e.props.symbolLen then Outcome(e.(req := e.req.(counter := counter)), 0, [])
      else
        var index := ToU8(e.req.index + 1);
        var moved := e.(req := e.req.(counter := counter, index := index));
        if index == SYMBOL_NO_IN_BYTE then Outcome(moved.(req := moved.req.(isTransmitting := false)), 1, [0])
        else
          var t := TryTxStep(moved);
          Outcome(t.next, 1, t.calls)
  }

  /** mod_force_stop_transmission. */
  function ForceStopStep(e: Engine): (r: Outcome<bool>)
    requires Consistent(e)
    ensures Consistent(r.next) && !r.next.req.isTransmitting
    ensures r.ret <==> e.req.isTransmitting
    ensures r.next == e.(req := e.req.(isTransmitting := false))
    ensures r.calls == if r.ret then [0] else []
  {
    if !e.req.isTransmitting then Outcome(e, false, [])
    else Outcome(e.(req := e.req.(isTransmitting := false)), true, [0])
  }

  /** mod_destruct. */
  function DestructStep(e: Engine): (r: Outcome<bool>)
    requires Consistent(e)
    ensures Consistent(r.next) && !r.next.req.isTransmitting
    ensures r.ret <==> e.req.isTransmitting
    ensures r.next == Engine(Props(0, 0, 0), e.req.(isTransmitting := false))
    ensures r.calls == if r.ret then [0] else []
  {
    var s := ForceStopStep(e);
    Outcome(s.next.(props := Props(0, 0, 0)), s.ret, s.calls)
  }

  /** After a forced stop the engine is idle and accepts the next byte. */
  lemma StopThenRestart(e: Engine, m: byte)
    requires Consistent(e)
    ensures TransmitStep(ForceStopStep(e).next).ret == -1
    ensures PrepareAndTransmitStep(ForceStopStep(e).next, m).ret == 0
  {
  }

  /** A second byte offered while the first is in flight is refused without any effect. */
  lemma SecondByteRefused(e: Engine, m: byte, m': byte)
    requires Consistent(e) && !e.req.isTransmitting
    ensures var p := PrepareAndTransmitStep(e, m);
      PrepareAndTransmitStep(p.next, m') == Outcome(p.next, -1, [])
  {
  }

  // ---------------------------------------------------------------------
  // Many ticks
  // ---------------------------------------------------------------------

  /** What n successive ticks do: the final engine, every transmit_func value in order, every return value in order. */
  datatype Trace = Trace(final: Engine, calls: seq<u32>, rets: seq<int>)

  function Run(e: Engine, n: nat): (t: Trace)
    requires Consistent(e)
    ensures Consistent(t.final) && |t.rets| == n
    decreases n
  {
    if n == 0 then Trace(e, [], [])
    else
      var s := TransmitStep(e);
      var t := Run(s.next, n - 1);
      Trace(t.final, s.calls + t.calls, [s.ret] + t.rets)
  }

  /** The frequencies commanded for a sequence of symbols. */
  function Freqs(p: Props, syms: seq<Symbol>): (fs: seq<u32>)
    ensures |fs| == |syms|
    ensures forall k :: 0 <= k < |syms| ==> fs[k] == SymbolFreq(p, syms[k])
  {
    if syms == [] then [] else [SymbolFreq(p, syms[0])] + Freqs(p, syms[1..])
  }

  function Zeros(n: nat): (z: seq<int>)
    ensures |z| == n && forall k :: 0 <= k < n ==> z[k] == 0
  {
    if n == 0 then [] else [0] + Zeros(n - 1)
  }

  /** The return values of mod_transmit over `symbols` whole symbols: symbolLen-1 zeros, then a 1 when the next symbol starts. */
  function SymbolRets(symbolLen: nat, symbols: nat): seq<int>
    requires symbolLen >= 1
  {
    if symbols == 0 then [] else Zeros(symbolLen - 1) + [1] + SymbolRets(symbolLen, symbols - 1)
  }

  /** A symbol is being held: the engine is part way through symbol `index`, whose frequency is on the actuator. */
  predicate Holding(e: Engine)
  {
    && Consistent(e)
    && e.req.isTransmitting
    && 1 <= e.props.symbolLen <= 0x7F
    && 0 <= e.req.counter < e.props.symbolLen
    && e.req.currFreq == SymbolFreq(e.props, e.req.msg[e.req.index])
  }

  /** Ticks left until the message completes. */
  function TicksLeft(e: Engine): nat
    requires Holding(e)
  {
    (SYMBOL_NO_IN_BYTE - 1 - e.req.index) * e.props.symbolLen + (e.props.symbolLen - e.req.counter)
  }

  /** One tick while a symbol is held and its counter has not reached symbolLen: only the counter moves. */
  lemma HoldCounter(e: Engine)
    requires Holding(e) && e.req.counter + 1 < e.props.symbolLen
    ensures TransmitStep(e) == Outcome(e.(req := e.req.(counter := e.req.counter + 1)), 0, [])
  {
  }

  /** The engine after the tick that starts symbol index + 1. */
  function NextSymbol(e: Engine): Engine
    requires Consistent(e) && e.req.index + 1 < SYMBOL_NO_IN_BYTE
  {
    e.(req := e.req.(index := e.req.index + 1, counter := 0,
                     currFreq := SymbolFreq(e.props, e.req.msg[e.req.index + 1])))
  }

  /** The last tick of a symbol that is not the last: the next symbol is commanded and held. */
  lemma HoldNextSymbol(e: Engine)
    requires Holding(e) && e.req.counter + 1 == e.props.symbolLen && e.req.index + 1 < SYMBOL_NO_IN_BYTE
    ensures var s := TransmitStep(e);
      && Holding(s.next) && s.next.props == e.props && s.next.req.msg == e.req.msg
      && s.next.req.index == e.req.index + 1 && s.next.req.counter == 0
      && s.ret == 1 && s.calls == [SymbolFreq(e.props, e.req.msg[e.req.index + 1])]
      && s.next == NextSymbol(e)
  {
  }

  /** The last tick of the last symbol: 0 is commanded and the engine goes idle. */
  lemma HoldLastSymbol(e: Engine)
    requires Holding(e) && e.req.counter + 1 == e.props.symbolLen && e.req.index + 1 == SYMBOL_NO_IN_BYTE
    ensures var s := TransmitStep(e);
      !s.next.req.isTransmitting && s.ret == 1 && s.calls == [0]
  {
  }

  /** One tick while a symbol is held: the counter advances, or the next symbol starts, or the message ends. */
  lemma HoldStep(e: Engine)
    requires Holding(e)
    ensures var s := TransmitStep(e);
      var L, i, c := e.props.symbolLen, e.req.index, e.req.counter;
      && (c + 1 < L ==> s == Outcome(e.(req := e.req.(counter := c + 1)), 0, []))
      && (c + 1 == L && i + 1 < SYMBOL_NO_IN_BYTE ==>
            && Holding(s.next) && s.next.props == e.props && s.next.req.msg == e.req.msg
            && s.next.req.index == i + 1 && s.next.req.counter == 0
            && s.ret == 1 && s.calls == [SymbolFreq(e.props, e.req.msg[i + 1])])
      && (c + 1 == L && i + 1 == SYMBOL_NO_IN_BYTE ==>
            !s.next.req.isTransmitting && s.ret == 1 && s.calls == [0])
  {
    if e.req.counter + 1 < e.props.symbolLen {
      HoldCounter(e);
    } else if e.req.index + 1 < SYMBOL_NO_IN_BYTE {
      HoldNextSymbol(e);
    } else {
      HoldLastSymbol(e);
    }
  }

  /**
   * What the rest of a message looks like from the held symbol index i at
   * counter c: symbol after symbol is commanded, then 0, and one symbol is
   * reported per symbolLen ticks.
   */
  ghost predicate Ends(t: Trace, p: Props, msg: seq<Symbol>, i: nat, c: int)
    requires i < |msg| && i < SYMBOL_NO_IN_BYTE && 0 <= c < p.symbolLen
  {
    && !t.final.req.isTransmitting
    && t.calls == Freqs(p, msg[i + 1..]) + [0]
    && t.rets == Zeros(p.symbolLen - 1 - c) + [1] + SymbolRets(p.symbolLen, SYMBOL_NO_IN_BYTE - 1 - i)
  }

  ghost predicate EndsAsExpected(e: Engine)
    requires Holding(e)
  {
    Ends(Run(e, TicksLeft(e)), e.props, e.req.msg, e.req.index, e.req.counter)
  }

  /** A silent tick in front of the ticks of a symbol. */
  lemma EndsCounter(t: Trace, p: Props, msg: seq<Symbol>, i: nat, c: int)
    requires i < |msg| && i < SYMBOL_NO_IN_BYTE && 0 <= c && c + 1 < p.symbolLen
    requires Ends(t, p, msg, i, c + 1)
    ensures Ends(Trace(t.final, t.calls, [0] + t.rets), p, msg, i, c)
  {
    assert Zeros(p.symbolLen - 1 - c) == [0] + Zeros(p.symbolLen - 1 - (c + 1));
  }

  /** The tick that starts symbol i + 1 in front of the ticks of the rest of the message. */
  lemma EndsSymbol(t: Trace, p: Props, msg: seq<Symbol>, i: nat)
    requires i + 1 < |msg| == SYMBOL_NO_IN_BYTE && 1 <= p.symbolLen
    requires Ends(t, p, msg, i + 1, 0)
    ensures Ends(Trace(t.final, [SymbolFreq(p, msg[i + 1])] + t.calls, [1] + t.rets), p, msg, i, p.symbolLen - 1)
  {
    FreqsFrom(p, msg, i + 1);
    assert Zeros(p.symbolLen - 1 - (p.symbolLen - 1)) == [];
  }

  lemma FreqsFrom(p: Props, msg: seq<Symbol>, i: nat)
    requires i < |msg|
    ensures Freqs(p, msg[i..]) == [SymbolFreq(p, msg[i])] + Freqs(p, msg[i + 1..])
  {
    assert msg[i..][1..] == msg[i + 1..];
  }

  lemma CounterRun(e: Engine, n: nat)
    requires Holding(e) && e.req.counter + 1 < e.props.symbolLen && n > 0
    ensures var t := Run(e.(req := e.req.(counter := e.req.counter + 1)), n - 1);
      Run(e, n) == Trace(t.final, t.calls, [0] + t.rets)
  {
    HoldCounter(e);
  }

  lemma CounterTick(e: Engine)
    requires Holding(e) && e.req.counter + 1 < e.props.symbolLen
    requires var e' := e.(req := e.req.(counter := e.req.counter + 1)); Holding(e') && EndsAsExpected(e')
    ensures EndsAsExpected(e)
  {
    HoldCounter(e);
    var e' := e.(req := e.req.(counter := e.req.counter + 1));
    var n := TicksLeft(e);
    assert TicksLeft(e') == n - 1;
    CounterRun(e, n);
    EndsCounter(Run(e', n - 1), e.props, e.req.msg, e.req.index, e.req.counter);
  }

  lemma SymbolTicksLeft(i: nat, L: nat)
    requires i + 1 < SYMBOL_NO_IN_BYTE
    ensures (SYMBOL_NO_IN_BYTE - 1 - i) * L + 1 - 1 == (SYMBOL_NO_IN_BYTE - 1 - (i + 1)) * L + L
  {
    var k := SYMBOL_NO_IN_BYTE - 1 - (i + 1);
    assert (k + 1) * L == k * L + L;
  }

  lemma SymbolRun(e: Engine, n: nat)
    requires Holding(e) && e.req.counter + 1 == e.props.symbolLen && e.req.index + 1 < SYMBOL_NO_IN_BYTE && n > 0
    ensures Holding(NextSymbol(e))
    ensures var t := Run(NextSymbol(e), n - 1);
      Run(e, n) == Trace(t.final, [SymbolFreq(e.props, e.req.msg[e.req.index + 1])] + t.calls, [1] + t.rets)
  {
    HoldNextSymbol(e);
  }

  lemma SymbolTick(e: Engine)
    requires Holding(e) && e.req.counter + 1 == e.props.symbolLen && e.req.index + 1 < SYMBOL_NO_IN_BYTE
    requires Holding(NextSymbol(e)) && EndsAsExpected(NextSymbol(e))
    ensures EndsAsExpected(e)
  {
    var n := TicksLeft(e);
    SymbolTicksLeft(e.req.index, e.props.symbolLen);
    assert TicksLeft(NextSymbol(e)) == n - 1;
    SymbolRun(e, n);
    EndsSymbol(Run(NextSymbol(e), n - 1), e.props, e.req.msg, e.req.index);
  }

  lemma LastTick(e: Engine)
    requires Holding(e) && e.req.counter + 1 == e.props.symbolLen && e.req.index + 1 == SYMBOL_NO_IN_BYTE
    ensures EndsAsExpected(e)
  {
    HoldLastSymbol(e);
    assert TicksLeft(e) == 1;
    assert e.req.msg[e.req.index + 1..] == [];
  }

  /** From a held symbol the message runs to its end as EndsAsExpected says. */
  lemma {:induction false} RunToEnd(e: Engine)
    requires Holding(e)
    ensures EndsAsExpected(e)
    decreases TicksLeft(e)
  {
    if e.req.counter + 1 < e.props.symbolLen {
      var e' := e.(req := e.req.(counter := e.req.counter + 1));
      assert Holding(e') && TicksLeft(e') == TicksLeft(e) - 1;
      RunToEnd(e');
      CounterTick(e);
    } else if e.req.index + 1 < SYMBOL_NO_IN_BYTE {
      HoldNextSymbol(e);
      var e' := NextSymbol(e);
      SymbolTicksLeft(e.req.index, e.props.symbolLen);
      assert TicksLeft(e') == TicksLeft(e) - 1;
      RunToEnd(e');
      SymbolTick(e);
    } else {
      LastTick(e);
    }
  }

  /** Until the message ends, the engine reports that it is transmitting. */
  lemma {:induction false} StillTransmitting(e: Engine, k: nat)
    requires Holding(e) && k < TicksLeft(e)
    ensures Run(e, k).final.req.isTransmitting
    decreases k
  {
    if k > 0 {
      var L, i, c := e.props.symbolLen, e.req.index, e.req.counter;
      HoldStep(e);
      var e' := TransmitStep(e).next;
      if c + 1 < L {
        assert TicksLeft(e') == TicksLeft(e) - 1;
      } else {
        var k := SYMBOL_NO_IN_BYTE - 1 - (i + 1);
        assert (k + 1) * L == k * L + L;
        assert TicksLeft(e') == TicksLeft(e) - 1;
      }
      StillTransmitting(e', k - 1);
    }
  }

  /**
   * A byte offered to an idle engine with 1 <= symbolLen <= 127 is sent in
   * exactly 8 * symbolLen ticks: the frequencies of its eight symbols, most
   * significant bit first, are commanded in order (the first one by
   * mod_prepare_and_transmit itself), then 0; mod_transmit reports one symbol
   * sent at the last tick of each symbol.
   */
  lemma TransmitByte(e: Engine, m: byte)
    requires Consistent(e) && !e.req.isTransmitting
    requires 1 <= e.props.symbolLen <= 0x7F
    ensures var p := PrepareAndTransmitStep(e, m);
      var t := Run(p.next, SYMBOL_NO_IN_BYTE * e.props.symbolLen);
      && p.ret == 0
      && p.calls + t.calls == Freqs(e.props, Encode(m)) + [0]
      && !t.final.req.isTransmitting
      && t.rets == SymbolRets(e.props.symbolLen, SYMBOL_NO_IN_BYTE)
    ensures var p := PrepareAndTransmitStep(e, m);
      forall k :: 0 <= k < SYMBOL_NO_IN_BYTE * e.props.symbolLen ==> Run(p.next, k).final.req.isTransmitting
  {
    TransmitByteEnds(e, m);
    var p := PrepareAndTransmitStep(e, m);
    forall k | 0 <= k < SYMBOL_NO_IN_BYTE * e.props.symbolLen
      ensures Run(p.next, k).final.req.isTransmitting
    {
      TransmitByteStarts(e, m);
      StillTransmitting(p.next, k);
    }
  }

  /** An accepted byte holds its first symbol with the whole message still ahead. */
  lemma TransmitByteStarts(e: Engine, m: byte)
    requires Consistent(e) && !e.req.isTransmitting
    requires 1 <= e.props.symbolLen <= 0x7F
    ensures var p := PrepareAndTransmitStep(e, m);
      && p.ret == 0 && Holding(p.next) && p.next.props == e.props
      && p.next.req.msg == Encode(m) && p.next.req.index == 0 && p.next.req.counter == 0
      && p.calls == [SymbolFreq(e.props, Encode(m)[0])]
      && TicksLeft(p.next) == SYMBOL_NO_IN_BYTE * e.props.symbolLen
  {
  }

  /** The calls, the return values and the end of the transmission of TransmitByte. */
  lemma TransmitByteEnds(e: Engine, m: byte)
    requires Consistent(e) && !e.req.isTransmitting
    requires 1 <= e.props.symbolLen <= 0x7F
    ensures var p := PrepareAndTransmitStep(e, m);
      var t := Run(p.next, SYMBOL_NO_IN_BYTE * e.props.symbolLen);
      && p.ret == 0
      && p.calls + t.calls == Freqs(e.props, Encode(m)) + [0]
      && !t.final.req.isTransmitting
      && t.rets == SymbolRets(e.props.symbolLen, SYMBOL_NO_IN_BYTE)
  {
    TransmitByteStarts(e, m);
    var p := PrepareAndTransmitStep(e, m);
    var L := e.props.symbolLen;
    var syms := Encode(m);
    var t := Run(p.next, SYMBOL_NO_IN_BYTE * L);
    assert !t.final.req.isTransmitting && t.calls == Freqs(e.props, syms[1..]) + [0]
        && t.rets == Zeros(L - 1) + [1] + SymbolRets(L, SYMBOL_NO_IN_BYTE - 1) by {
      RunToEnd(p.next);
      assert Ends(t, e.props, syms, 0, 0);
      assert L - 1 - 0 == L - 1;
    }
    assert SymbolRets(L, SYMBOL_NO_IN_BYTE) == Zeros(L - 1) + [1] + SymbolRets(L, SYMBOL_NO_IN_BYTE - 1);
    assert Freqs(e.props, syms) == [SymbolFreq(e.props, syms[0])] + Freqs(e.props, syms[1..]) by {
      FreqsFrom(e.props, syms, 0);
      assert syms[0..] == syms;
    }
    assert p.calls + t.calls == [SymbolFreq(e.props, syms[0])] + (Freqs(e.props, syms[1..]) + [0]);
  }

  /**
   * `counter` is an int8_t compared with the uint16_t `symbolLen`: when
   * symbolLen is 128 or more the counter wraps before reaching it, so the
   * current symbol is held forever and nothing more is commanded.
   */
  lemma {:induction false} LongSymbolNeverEnds(e: Engine, n: nat)
    requires Consistent(e) && e.req.isTransmitting && e.props.symbolLen >= 0x80
    ensures var t := Run(e, n);
      t.final.req.isTransmitting && t.final.req.index == e.req.index && t.calls == [] && t.rets == Zeros(n)
    decreases n
  {
    if n > 0 {
      LongSymbolNeverEnds(TransmitStep(e).next, n - 1);
    }
  }

  // ---------------------------------------------------------------------
  // The engine as an object
  // ---------------------------------------------------------------------

  /** struct ModulationScheme, updated in place through a pointer. */
  class ModulationScheme {
    // struct ModProps
    var lowFreq: u32
    var highFreq: u32
    var symbolLen: u16
    // struct ModSendRequest
    var isTransmitting: bool
    const msg: array<Symbol>
    var index: byte
    var counter: i8
    var currFreq: u32
    /** Every value passed to transmit_func, oldest first. */
    var txLog: seq<u32>

    function State(): Engine
      reads this, msg
    {
      Engine(Props(lowFreq, highFreq, symbolLen), SendReq(isTransmitting, msg[..], index, counter, currFreq))
    }

    ghost predicate Valid()
      reads this, msg
    {
      msg.Length == SYMBOL_NO_IN_BYTE && Consistent(State())
    }

    /** A struct ModulationScheme with static storage, zero-initialised. */
    constructor ()
      ensures Valid() && State() == Zeroed() && txLog == []
      ensures fresh(msg)
    {
      lowFreq, highFreq, symbolLen := 0, 0, 0;
      isTransmitting := false;
      msg := new Symbol[SYMBOL_NO_IN_BYTE](_ => LOW);
      index, counter, currFreq := 0, 0, 0;
      txLog := [];
      new;
      assert msg[..] == Zeroed().req.msg;
    }

    /** `*ms = mod_create(centerFreq, bandwidth, symbolLengthMs, taskPeriodMs)`. */
    method Assign(centerFreq: u32, bandwidth: u32, symbolLengthMs: u32, taskPeriodMs: u32)
      requires Valid() && taskPeriodMs > 0
      modifies this, msg
      ensures Valid() && State() == Create(centerFreq, bandwidth, symbolLengthMs, taskPeriodMs)
      ensures txLog == old(txLog)
    {
      var e := Create(centerFreq, bandwidth, symbolLengthMs, taskPeriodMs);
      lowFreq, highFreq, symbolLen := e.props.lowFreq, e.props.highFreq, e.props.symbolLen;
      isTransmitting, index, counter, currFreq := e.req.isTransmitting, e.req.index, e.req.counter, e.req.currFreq;
      forall k | 0 <= k < msg.Length {
        msg[k] := e.req.msg[k];
      }
      assert msg[..] == e.req.msg;
    }

    /** mod_is_transmitting. */
    function IsTransmitting(): (r: bool)
      reads this, msg
      requires Valid()
      ensures r <==> State().req.isTransmitting
      ensures r ==> index < SYMBOL_NO_IN_BYTE
    {
      isTransmitting
    }

    /** try_tx_current_symbol. */
    method TryTxCurrentSymbol() returns (r: int)
      requires Valid()
      modifies this
      ensures Valid()
      ensures var s := TryTxStep(old(State()));
        State() == s.next && r == s.ret && txLog == old(txLog) + s.calls
    {
      if !isTransmitting {
        return -1;
      }
      if index >= SYMBOL_NO_IN_BYTE {
        return -2;
      }
      counter := 0;
      var currentSymbol := msg[index];
      if currentSymbol == LOW {
        currFreq := lowFreq;
      } else {
        currFreq := highFreq;
      }
      txLog := txLog + [currFreq];
      return 0;
    }

    /** mod_prepare_and_transmit. */
    method PrepareAndTransmit(m: byte) returns (r: int)
      requires Valid()
      modifies this, msg
      ensures Valid()
      ensures var s := PrepareAndTransmitStep(old(State()), m);
        State() == s.next && r == s.ret && txLog == old(txLog) + s.calls
    {
      if isTransmitting {
        return -1;
      }
      index := 0;
      ConvToSymbols(msg, m);
      isTransmitting := true;
      var _ := TryTxCurrentSymbol();
      return 0;
    }

    /** mod_transmit. */
    method Transmit() returns (r: int)
      requires Valid()
      modifies this
      ensures Valid()
      ensures var s := TransmitStep(old(State()));
        State() == s.next && r == s.ret && txLog == old(txLog) + s.calls
    {
      if !isTransmitting {
        return -1;
      }
      counter := ToI8(counter + 1);
      if counter < symbolLen {
        return 0;
      }
      index := ToU8(index + 1);
      if index == SYMBOL_NO_IN_BYTE {
        txLog := txLog + [0];
        isTransmitting := false;
        return 1;
      }
      var _ := TryTxCurrentSymbol();
      return 1;
    }

    /** mod_force_stop_transmission. */
    method ForceStopTransmission() returns (r: bool)
      requires Valid()
      modifies this
      ensures Valid()
      ensures var s := ForceStopStep(old(State()));
        State() == s.next && r == s.ret && txLog == old(txLog) + s.calls
    {
      if !IsTransmitting() {
        return false;
      }
      isTransmitting := false;
      txLog := txLog + [0];
      return true;
    }

    /** mod_destruct. */
    method Destruct() returns (r: bool)
      requires Valid()
      modifies this
      ensures Valid()
      ensures var s := DestructStep(old(State()));
        State() == s.next && r == s.ret && txLog == old(txLog) + s.calls
    {
      r := ForceStopTransmission();
      lowFreq := 0;
      highFreq := 0;
      symbolLen := 0;
    }
  }
}
