# Acoustic signalling on the Crazyflie motors, in Dafny

This project models the part of the sound-IDing Crazyflie firmware that makes
the quadcopter's motors transmit data as sound. The firmware runs it one
periodic tick at a time. It then proves properties of the model.

- **Binary FSK engine** (`modulation_scheme.c`, `modulation_shceme.h`),
  file `modulation_scheme.dfy`, module `Modulation`.
  - A byte becomes eight LOW/HIGH symbols, most significant bit first.
  - Each `mod_transmit` tick holds the current symbol for `symbol_len`
    ticks, then moves to the next one.
  - After the eighth symbol the engine commands 0 Hz.
  - Starting is refused while busy. Stopping and destroying the engine
    silence it.
- **Transmission driver** (`motor_transmission.c`), file
  `motor_transmission.dfy`, module `MotorTransmission`.
  - Every tick it ticks two engines, one for motors M1–M3 and one for M4.
  - It waits `symbol_pause / TASK_PERIOD` ticks before it starts a stream
    of two characters of `"Hello world! :) \n"`.
  - It keeps a stream flag, and it rebuilds both engines on request.
  - Two anti-chatter wrappers forward a frequency to the motors only when it
    changed.
- **Chirp broadcaster** (`motor_chirp.c`), file `motor_chirp.dfy`, module
  `MotorChirp`.
  - On a shared request, each of the four motors sends its byte as eight
    linear sweeps, least significant bit first.
  - A set bit is an up-chirp and a clear bit a down-chirp, with a pause
    between chirps.
  - A motor is told a frequency only when it differs from the last one it
    was told.
- **ID beacon** (`motor_iding.c`), file `motor_iding.dfy`, module
  `MotorIding`.
  - A request turns the ID frequency on for the motors of a 4-bit bitmap.
  - It holds the tone for four more ticks, then silences exactly those
    motors.
  - A request while busy is dropped.
- `cints.dfy` holds the C integer widths (`uint8_t`, `uint16_t`, `uint32_t`,
  `int8_t`, `int16_t`) and the conversions C performs when a wider value is
  stored into one of them. It also holds the bit test `x & (1 << k)` and the
  log entry of one `motorsSetFrequency` call.

Each C function that changes state has two forms in the model:
- a pure step function on a datatype value that returns three things: the
  new state, the C return value and the actuator calls made, in order;
- a method of a class whose fields are the C variables.

Each method is proved to perform exactly its step. The step functions carry
contracts, and the lemmas are stated about them. Calls to `transmit_func` and
`motorsSetFrequency` are appended to a log field:
- `txLog` for an engine;
- `motorLog`, as `(motor, frequency)` pairs, for the driver, the broadcaster
  and the beacon.

Some behaviour of the code is easy to miss, and the model proves it:
- `int8_t counter` is compared with a `uint16_t symbol_len`. So a byte takes
  exactly `8 * symbol_len` ticks when `1 <= symbol_len <= 127`. A symbol
  never ends when `symbol_len >= 128`, because the counter wraps first.
- The start gate counts only when `transmit == 1`. Any other non-zero value
  of `transmit` starts a stream at once.
- `error_code` is a `uint8_t`, so the refusal `-1` of a busy M4 engine is
  stored as 255. The result for the M1–M3 engine is overwritten.
- `last_frequency` of each wrapper starts at 0, so a 0 commanded first is
  never forwarded.
- In the chirp broadcaster, the first chirp of a message pushes its start
  frequency. Each later chirp is set up in the tick that ends the pause and
  is moved one step in that same tick, so its start frequency is never
  pushed.
- Channel 3 clears the shared chirp request only when it is idle itself.
  While channel 3 is busy the request stays set, and every other channel
  restarts as soon as it goes idle.

A few more facts about the code that the model keeps:
- The FSK engine has two symbols, LOW and HIGH.
- At every symbol boundary `mod_transmit` calls `transmit_func`. Only the
  wrappers `transmit_motor4` and `transmit_motor123` drop repeated
  frequencies.
- Force-stop commands 0 Hz only while a transmission is in progress.
- The chirp pause counts `pauseTicks` up from 0.
- Channel 3 clears the chirp request only when it is idle itself, so the
  request is not always cleared in the tick in which it is seen.

## Model

| member | source | states |
|---|---|---|
| CInts.ToU16 | src/modules/src/motor_transmission.c:177 | storing into a `uint16_t` keeps a value already in range and otherwise reduces it modulo 2^16 |
| CInts.ToI8 | src/modules/interface/modulation_shceme.h:19 | storing into an `int8_t` keeps values in -128..127 and otherwise wraps modulo 2^8 (two's complement) |
| CInts.ToU8 | src/modules/src/motor_chirp.c:76 | storing into a `uint8_t` (`msgCounter += 1`, `pauseTicks += 1`, `++broadcastingCount`) keeps a value in range and otherwise reduces it modulo 2^8 |
| CInts.ToI16 | src/modules/src/motor_chirp.c:68 | storing `-dF` into an `int16_t` keeps values in range and otherwise wraps modulo 2^16 |
| CInts.ToU32 | src/modules/src/modulation_scheme.c:26-27 | `uint32_t` arithmetic of `mod_create` keeps values in range and otherwise wraps modulo 2^32 |
| CInts.LowNibbleBits | src/modules/src/motor_iding.c:60 | `& 0x0F` keeps bits 0–3 of the bitmap and clears every higher bit |
| Modulation.MsbFirstAt | src/modules/src/modulation_scheme.c:167-174 | symbol i of the n-symbol split is HIGH exactly when bit n-1-i is set |
| Modulation.EncodeBits | src/modules/src/modulation_scheme.c:161-177 | a byte becomes 8 symbols; symbol i is HIGH iff bit 7-i is set (most significant bit first) |
| Modulation.EncodeExample | src/modules/src/modulation_scheme.c:158-159 | 0b11000110 becomes {HIGH, HIGH, LOW, LOW, LOW, HIGH, HIGH, LOW} |
| Modulation.DecodeMsbFirst | src/modules/src/modulation_scheme.c:149-155 | reading the symbols back most significant first gives the number (for every width n) |
| Modulation.MsbFirstDecode | src/modules/src/modulation_scheme.c:149-155 | every symbol sequence is the split of the number it reads as (the split is onto) |
| Modulation.DecodeEncode | src/modules/src/modulation_scheme.c:149-177 | decoding the symbols of a byte gives the byte back |
| Modulation.EncodeDecode | src/modules/src/modulation_scheme.c:149-177 | every 8-symbol sequence is the encoding of exactly one byte |
| Modulation.ConvToSymbols | src/modules/src/modulation_scheme.c:161-177 | the loop fills the 8-element array with the encoding of the byte |
| Modulation.Zeroed | src/modules/src/modulation_scheme.c:39-44 | the zeroed send state is consistent and not transmitting |
| Modulation.DivideAndCeil | src/modules/src/modulation_scheme.c:7-13 | the result is the ceiling of x / y: x <= r*y < x + y |
| Modulation.CeilFits | src/modules/interface/modulation_shceme.h:27 | the ceiling fits the `uint16_t symbol_len` when x <= 65535*y |
| Modulation.Create | src/modules/src/modulation_scheme.c:20-52 | idle zeroed send state; low + high = 2*center and high - low = bandwidth rounded down to even when nothing wraps; symbol_len is the ceiling of ms / period when it fits |
| Modulation.TryTxStep | src/modules/src/modulation_scheme.c:190-214 | -1 exactly when idle; a transmitting engine always returns 0, so the -2 branch for an index past the last symbol cannot be reached while the engine invariant holds; on 0 the counter is 0, curr_freq is the frequency of msg[index] and it is the one call; otherwise no change and no call |
| Modulation.PrepareAndTransmitStep | src/modules/src/modulation_scheme.c:54-74 | busy gives -1 with no change and no call; otherwise index 0, counter 0, the message encoded, transmitting, one call with the first symbol's frequency, return 0 |
| Modulation.TransmitStep | src/modules/src/modulation_scheme.c:82-113 | -1 iff idle and then no change; while transmitting, 0 exactly when the `int8_t` counter + 1 stays below symbol_len, and then only the counter moves and nothing is called; otherwise 1 with exactly one call: the next symbol's frequency with index+1 and counter 0 while index+1 < 8, or 0 Hz with the transmission ended after the 8th symbol |
| Modulation.ForceStopStep | src/modules/src/modulation_scheme.c:124-134 | returns whether it was transmitting; always leaves it idle; commands 0 exactly when it was transmitting; nothing else changes |
| Modulation.DestructStep | src/modules/src/modulation_scheme.c:136-146 | the force-stop result and call, with low, high and symbol_len zeroed and the send state otherwise unchanged |
| Modulation.StopThenRestart | src/modules/src/modulation_scheme.c:124-134 | after a force stop a tick reports idle (-1) and a new byte is accepted (0) |
| Modulation.SecondByteRefused | src/modules/src/modulation_scheme.c:57-61 | right after a start, a second start returns -1, changes nothing and calls nothing |
| Modulation.HoldCounter | src/modules/src/modulation_scheme.c:90-96 | mid-symbol a tick only increments the counter, returns 0 and calls nothing |
| Modulation.HoldNextSymbol | src/modules/src/modulation_scheme.c:98-112 | at a boundary before the last symbol: index+1, counter 0, one call with the next symbol's frequency, return 1 |
| Modulation.HoldLastSymbol | src/modules/src/modulation_scheme.c:99-106 | the boundary after the 8th symbol commands 0, ends the transmission and returns 1 |
| Modulation.HoldStep | src/modules/src/modulation_scheme.c:90-112 | the three cases of a tick of a transmission in progress |
| Modulation.RunToEnd | src/modules/src/modulation_scheme.c:82-113 | from any point of a transmission, the remaining ticks return 0s and 1s in the expected pattern and command the remaining symbols' frequencies and then 0 |
| Modulation.StillTransmitting | src/modules/src/modulation_scheme.c:86-96 | before its last tick a transmission is still in progress |
| Modulation.TransmitByte | src/modules/src/modulation_scheme.c:54-113 | with 1 <= symbol_len <= 127, a started byte's calls are the 8 symbol frequencies then 0, it ends after exactly 8*symbol_len ticks and is in progress before |
| Modulation.LongSymbolNeverEnds | src/modules/src/modulation_scheme.c:91-96 | with symbol_len >= 128 the `int8_t` counter wraps before reaching it: the symbol never ends and no call is made |
| Modulation.ModulationScheme.constructor | src/modules/interface/modulation_shceme.h:33-38 | a fresh engine is the zeroed, idle state with an empty log |
| Modulation.ModulationScheme.Assign | src/modules/src/modulation_scheme.c:20-52 | assigning `mod_create`'s result sets the fields to Create's engine and calls nothing |
| Modulation.ModulationScheme.IsTransmitting | src/modules/src/modulation_scheme.c:115-122 | true iff a transmission is in progress |
| Modulation.ModulationScheme.TryTxCurrentSymbol | src/modules/src/modulation_scheme.c:190-214 | performs TryTxStep on the fields and appends its calls |
| Modulation.ModulationScheme.PrepareAndTransmit | src/modules/src/modulation_scheme.c:54-74 | performs PrepareAndTransmitStep on the fields and appends its calls |
| Modulation.ModulationScheme.Transmit | src/modules/src/modulation_scheme.c:82-113 | performs TransmitStep on the fields and appends its calls |
| Modulation.ModulationScheme.ForceStopTransmission | src/modules/src/modulation_scheme.c:124-134 | performs ForceStopStep on the fields and appends its calls |
| Modulation.ModulationScheme.Destruct | src/modules/src/modulation_scheme.c:136-146 | performs DestructStep on the fields and appends its calls |
| MotorTransmission.TransmitMotor4Step | src/modules/src/motor_transmission.c:173-181 | one call of `transmit_motor4`: the call to M4 with the `uint16_t` value is made exactly when the value differs from the remembered one, and the value is remembered |
| MotorTransmission.TransmitMotor123Step | src/modules/src/motor_transmission.c:183-195 | one call of `transmit_motor123`: three calls, to M1, M2 and M3 in that order with the `uint16_t` value, exactly when the value differs from the remembered one, and the value is remembered |
| MotorTransmission.Forward4 | src/modules/src/motor_transmission.c:173-181 | after a sequence of frequencies the wrapper remembers the last one |
| MotorTransmission.Forward123 | src/modules/src/motor_transmission.c:183-195 | after a sequence of frequencies the wrapper remembers the last one |
| MotorTransmission.Forward4NoRepeats | src/modules/src/motor_transmission.c:173-181 | every call goes to M4, no two consecutive calls repeat a frequency, the first differs from the remembered one and the last is the one remembered |
| MotorTransmission.Forward4Change | src/modules/src/motor_transmission.c:176-180 | a changed frequency is forwarded once, as `uint16_t`, and remembered |
| MotorTransmission.Forward4Stutter | src/modules/src/motor_transmission.c:176 | a frequency equal to the remembered one is swallowed; repeating a frequency changes nothing |
| MotorTransmission.Forward4Append | src/modules/src/motor_transmission.c:173-181 | forwarding two sequences in turn is forwarding their concatenation |
| MotorTransmission.FanOut | src/modules/src/motor_transmission.c:188-190 | each forwarded frequency becomes three calls |
| MotorTransmission.Forward123IsFanOut | src/modules/src/motor_transmission.c:183-195 | the M1–M3 wrapper forwards exactly when the M4 wrapper would, writing the frequency to M1, M2 and M3 in that order |
| MotorTransmission.ForwardOne | src/modules/src/motor_transmission.c:173-195 | forwarding at most one frequency is one wrapper call |
| MotorTransmission.DefaultFreqs | src/modules/src/motor_transmission.c:21-24 | the default engine has low 9750, high 10250, symbol_len 4, and 0xC6 commands 10250, 10250, 9750, 9750, 9750, 10250, 10250, 9750, 0 |
| MotorTransmission.DedupExample | src/modules/src/motor_transmission.c:173-181 | the M4 wrapper turns that sequence into 10250, 9750, 10250, 9750, 0 |
| MotorTransmission.DefaultByteOnMotor4 | src/modules/src/motor_transmission.c:90-91 | with the default parameters, 0xC6 reaches M4 as 10250, 9750, 10250, 9750, 0 |
| MotorTransmission.InitialDriver | src/modules/src/motor_transmission.c:33-48 | the start-up state satisfies the driver invariant, with no stream and pause 0 |
| MotorTransmission.CheckUpdateStep | src/modules/src/motor_transmission.c:201-216 | without the flag nothing happens; with it the flag is cleared and both engines are rebuilt idle from centre A/B, bandwidth and symbol length; `mod_destruct`'s 0 Hz commands of busy engines go through the wrappers, the calls are exactly the M1–M3 wrapper's then the M4 wrapper's and both wrappers remember what they were given |
| MotorTransmission.TickEngines | src/modules/src/motor_transmission.c:139-140 | both engines take one `mod_transmit` step; the calls are each engine's calls put through its wrapper, M1–M3 first, and the wrappers remember the last values |
| MotorTransmission.StartStream | src/modules/src/motor_transmission.c:152-157 | the stream flag is set, both engines are started with `hello[chosen_char_a]` and `hello[chosen_char_b]`, their first frequencies go through the wrappers (M1–M3 first) and are remembered, error_code is M4's result as `uint8_t` (255 or 0), and pause and the parameters are unchanged |
| MotorTransmission.AfterTick | src/modules/src/motor_transmission.c:142-170 | the gate counts while waiting; a start sets the stream (and resets pause when transmit is 1); otherwise the stream survives only with transmit non-zero and both engines busy |
| MotorTransmission.UpdateTransmissionStep | src/modules/src/motor_transmission.c:131-171 | a tick keeps the driver invariant, clears the update flag, and a stream flag set afterwards means transmit is non-zero and both engines are busy |
| MotorTransmission.EnginesAlwaysTicked | src/modules/src/motor_transmission.c:139-140 | every tick that starts nothing advances both engines by one `mod_transmit` step |
| MotorTransmission.WaitTick | src/modules/src/motor_transmission.c:142-148 | below the threshold the tick only increments pause |
| MotorTransmission.GateOpens | src/modules/src/motor_transmission.c:143-155 | reaching the threshold resets pause to 0 and starts the stream with both engines busy |
| MotorTransmission.OtherTransmitSkipsGate | src/modules/src/motor_transmission.c:142-154 | with transmit >= 2 the stream starts at once and pause is untouched |
| MotorTransmission.ErrorCodeOfStart | src/modules/src/motor_transmission.c:155-156 | a start leaves error_code 255 when M4 was still busy and 0 otherwise |
| MotorTransmission.ZeroTransmitEndsStream | src/modules/src/motor_transmission.c:160-162 | transmit 0 always clears the stream flag |
| MotorTransmission.FinishedEngineEndsStream | src/modules/src/motor_transmission.c:164-170 | a running stream continues iff both engines are still busy after their tick |
| MotorTransmission.ReconfigureRebuilds | src/modules/src/motor_transmission.c:203-216 | with the update flag both engines are rebuilt idle from the new parameters and the flag is cleared |
| MotorTransmission.DriverRun | src/modules/src/motor_transmission.c:131-171 | n ticks keep the driver invariant, and a stream still running after at least one tick has both engines busy |
| MotorTransmission.Waits | src/modules/src/motor_transmission.c:142-148 | k ticks below the threshold leave no stream and pause increased by k |
| MotorTransmission.StartsAfter | src/modules/src/motor_transmission.c:142-154 | the tick that reaches the threshold starts the stream and resets pause |
| MotorTransmission.ToMotorAppend | src/modules/src/motor_transmission.c:173-195 | the calls addressed to one motor in two runs of calls are those of the first run, then those of the second |
| MotorTransmission.Forward4OnlyM4 | src/modules/src/motor_transmission.c:178 | every call of the M4 wrapper is addressed to M4 |
| MotorTransmission.Forward123NotM4 | src/modules/src/motor_transmission.c:188-190 | no call of the M1–M3 wrapper is addressed to M4 |
| MotorTransmission.TicksLeftTick | src/modules/src/modulation_scheme.c:90-112 | a tick of a held symbol that does not finish the byte leaves the engine holding a symbol, one tick nearer the end |
| MotorTransmission.StreamTick | src/modules/src/motor_transmission.c:131-171 | during a stream a tick only ticks both engines and forwards their values; the stream goes on while more than one tick is left |
| MotorTransmission.StreamRun | src/modules/src/motor_transmission.c:131-181 | over k ticks of a stream, M4 receives exactly the M4 wrapper's output for what the M4 engine commands in those k ticks |
| MotorTransmission.StreamStart | src/modules/src/motor_transmission.c:142-157 | the tick that opens the gate starts a stream with both engines holding their first symbol, due to finish together, and hands M4 the wrapped first frequency |
| MotorTransmission.DriverSendsByte | src/modules/src/motor_transmission.c:131-181 | a byte the driver starts from two idle engines with the same symbol_len L in 1..127 reaches M4, over 1 + 8*L ticks, as the M4 wrapper's output for the byte's eight symbol frequencies followed by 0, and the stream is then over with the M4 engine idle |
| MotorTransmission.StartDelay | src/modules/src/motor_transmission.c:142-149 | from pause 0 with transmit 1 the stream starts exactly at tick max(1, symbol_pause/25), with no stream before |
| MotorTransmission.MotorTransmission.constructor | src/modules/src/motor_transmission.c:82-93 | the initial state: both engines created from the defaults, idle, and nothing sent |
| MotorTransmission.MotorTransmission.TransmitMotor4 | src/modules/src/motor_transmission.c:173-181 | performs the M4 wrapper on the driver's fields |
| MotorTransmission.MotorTransmission.TransmitMotor123 | src/modules/src/motor_transmission.c:183-195 | performs the M1–M3 wrapper on the driver's fields |
| MotorTransmission.MotorTransmission.CheckUpdateModuleParameters | src/modules/src/motor_transmission.c:201-216 | performs CheckUpdateStep on the objects |
| MotorTransmission.MotorTransmission.TickEnginesNow | src/modules/src/motor_transmission.c:139-140 | performs TickEngines on the objects, forwarding each engine's call through its wrapper |
| MotorTransmission.MotorTransmission.StartStreamNow | src/modules/src/motor_transmission.c:152-157 | performs StartStream on the objects |
| MotorTransmission.MotorTransmission.FinishTick | src/modules/src/motor_transmission.c:142-170 | performs AfterTick on the objects |
| MotorTransmission.MotorTransmission.UpdateTransmission | src/modules/src/motor_transmission.c:131-171 | performs UpdateTransmissionStep on the objects |
| MotorChirp.Half | src/modules/src/motor_chirp.c:83-84 | C's truncating `/ 2`: within one of halving, rounded toward zero |
| MotorChirp.SetupNextChirpStep | src/modules/src/motor_chirp.c:60-77 | pauseTicks 0, motorFreq the start frequency, msgCounter + 1 (as `uint8_t`), lastFreq, inPause and doingMsg unchanged |
| MotorChirp.ChirpDirection | src/modules/src/motor_chirp.c:64-74 | bit msgCounter set: bottomF to topF in steps of +dF; clear: topF to bottomF in steps of -dF |
| MotorChirp.SetupMessageStep | src/modules/src/motor_chirp.c:79-88 | message latched, msgCounter 0, inPause cleared, dF stored; when nothing wraps the band is centred on centerFreq and is totalFChange wide, rounded down to even |
| MotorChirp.LatchStep | src/modules/src/motor_chirp.c:103-113 | an idle channel that sees the request starts a message with chirp 1 set up; only channel 3 clears the request; otherwise nothing changes |
| MotorChirp.PushStep | src/modules/src/motor_chirp.c:115-119 | one call exactly when motorFreq differs from lastFreq; afterwards lastFreq equals motorFreq |
| MotorChirp.ProgressStep | src/modules/src/motor_chirp.c:121-157 | an idle channel is unchanged, and no case touches lastFreq |
| MotorChirp.UpdateChirpFreqStep | src/modules/src/motor_chirp.c:100-158 | the request is decided by the latch; the only call is the push of the latched channel's frequency on a change; lastFreq ends as that frequency |
| MotorChirp.BusyChannelIgnoresRequest | src/modules/src/motor_chirp.c:103 | a busy channel, even channel 3, behaves as without the request and leaves it set |
| MotorChirp.IdleChannelRests | src/modules/src/motor_chirp.c:103-121 | an idle channel without a request only pushes a pending change |
| MotorChirp.StartOfMessage | src/modules/src/motor_chirp.c:103-119 | a request starts an idle channel: the start frequency of chirp 1 (from bit 0) is pushed in the same tick, and only channel 3 clears the request |
| MotorChirp.ChirpCount | src/modules/src/motor_chirp.c:121-151 | every tick keeps the channel invariant; msgCounter grows by one exactly at the tick that ends a pause; a message ends only at msgCounter 8, so 8 chirps are sent |
| MotorChirp.UpSweepShape | src/modules/src/motor_chirp.c:137-156 | up-chirp values increase by dF each tick, stay at most topF before the last, and the last lies in (topF, topF + dF] |
| MotorChirp.DownSweepShape | src/modules/src/motor_chirp.c:137-156 | down-chirp values decrease by dF each tick, stay at least bottomF before the last, and the last lies in [bottomF - dF, bottomF) |
| MotorChirp.SweepTick | src/modules/src/motor_chirp.c:153-156 | an unfinished sweep pushes the current frequency and moves it by fStep without wrapping |
| MotorChirp.SweepEnd | src/modules/src/motor_chirp.c:137-151 | a sweep that is Finished (the test of line 137) pushes its last frequency and leaves the channel at 0, pausing or done |
| MotorChirp.ClimbRun | src/modules/src/motor_chirp.c:115-156 | an up-chirp pushes exactly the values of the up sweep, one per tick, then goes to 0 and pauses or ends the message |
| MotorChirp.FallRun | src/modules/src/motor_chirp.c:115-156 | a down-chirp pushes exactly the values of the down sweep, one per tick, then goes to 0 and pauses or ends the message |
| MotorChirp.PauseThenNextChirp | src/modules/src/motor_chirp.c:123-135 | a pause holds 0 for two ticks (only pauseTicks changes); the third tick sets up the next chirp and moves it one step, so its start frequency is never pushed |
| MotorChirp.StartNotFinished | src/modules/src/motor_chirp.c:137 | a freshly set-up chirp in a non-inverted band is not finished (the test of line 137 is the predicate Finished) |
| MotorChirp.SetupStartsSweep | src/modules/src/motor_chirp.c:60-77 | a chirp set up in a band that needs no wrapping is an up-sweep from bottomF for a set bit and a down-sweep from topF for a clear bit |
| MotorChirp.ChirpOrderIsReversed | src/modules/src/motor_chirp.c:64 | chirp k is up iff bit k is set, which is symbol 7-k of the FSK engine: the two use opposite bit orders |
| MotorChirp.UpdatePrefix | src/modules/src/motor_chirp.c:90-98 | after the first i iterations of the loop of `updateAllChirpsFreq` (UpdateAllStep is UpdatePrefix with i = 4) channels i..3 are untouched |
| MotorChirp.RequestStartsAllIdle | src/modules/src/motor_chirp.c:103-113 | a request that finds all four channels idle starts all four, each with its own message, and is cleared |
| MotorChirp.RequestOutlivesBusyChannel3 | src/modules/src/motor_chirp.c:106-109 | while channel 3 is busy the request is never cleared and every idle channel starts |
| MotorChirp.CallsInMotorOrder | src/modules/src/motor_chirp.c:90-98 | a tick makes at most one call per motor, in motor order 0..3 |
| MotorChirp.MotorChirp.constructor | src/modules/src/motor_chirp.c:37-54 | all per-motor arrays zero, the default parameters and messages 0xaa, no request |
| MotorChirp.MotorChirp.SetupNextChirp | src/modules/src/motor_chirp.c:60-77 | performs SetupNextChirpStep on index id of the arrays and leaves the other indices unchanged |
| MotorChirp.MotorChirp.SetupMessage | src/modules/src/motor_chirp.c:79-88 | performs SetupMessageStep on index id and leaves the other indices unchanged |
| MotorChirp.MotorChirp.Latch | src/modules/src/motor_chirp.c:103-113 | performs LatchStep on index id and the shared request |
| MotorChirp.MotorChirp.Push | src/modules/src/motor_chirp.c:115-119 | performs PushStep on index id and appends its call |
| MotorChirp.MotorChirp.EndPauseTick | src/modules/src/motor_chirp.c:125-134 | counts a pause tick and, past PAUSE_LENGTH, clears inPause and sets up the next chirp |
| MotorChirp.MotorChirp.StepChirp | src/modules/src/motor_chirp.c:137-156 | ends a finished chirp (0, then done or pause) or moves motorFreq by fStep as `uint16_t` |
| MotorChirp.MotorChirp.Progress | src/modules/src/motor_chirp.c:121-157 | performs ProgressStep on index id |
| MotorChirp.MotorChirp.UpdateChirpFreq | src/modules/src/motor_chirp.c:100-158 | performs UpdateChirpFreqStep: only channel id and the request change, and its calls are appended |
| MotorChirp.MotorChirp.UpdateAllChirpsFreq | src/modules/src/motor_chirp.c:90-98 | the loop performs the four channel updates in order 0..3 |
| MotorIding.MaskCallsExact | src/modules/src/motor_iding.c:61-67 | the calls MaskCalls gives for the loop over the four motors: motor k gets a call, with the given frequency, iff k < 4 and bit k is set; motors come in increasing order |
| MotorIding.MaskedMotors | src/modules/src/motor_iding.c:60-67 | after `& 0x0F` exactly the motors whose bit is set in the bitmap are called, and only motors 0..3 |
| MotorIding.UpdateIdingSoundStep | src/modules/src/motor_iding.c:40-96 | every tick keeps the state invariant and leaves the request flag cleared |
| MotorIding.IdleTick | src/modules/src/motor_iding.c:48-51 | no request and no broadcast: nothing changes and no call is made |
| MotorIding.StartTick | src/modules/src/motor_iding.c:54-81 | a request when idle latches bitmap & 0x0F, sets the frequency on exactly those motors and counts the first tick |
| MotorIding.RequestWhileBusyDropped | src/modules/src/motor_iding.c:69-72 | during a broadcast a tick with the request is the same as a tick without it |
| MotorIding.HoldTick | src/modules/src/motor_iding.c:74-81 | while the count stays at most 4 a tick only counts and clears the flag, with no call |
| MotorIding.StopTick | src/modules/src/motor_iding.c:83-94 | the fifth tick goes idle (count 0, nothing latched) and commands 0 on exactly the latched motors |
| MotorIding.HoldRun | src/modules/src/motor_iding.c:74-81 | held ticks only count, whatever is requested or configured in between |
| MotorIding.BroadcastSpansFiveTicks | src/modules/src/motor_iding.c:40-96 | a request from idle gives, over exactly 5 ticks, the tone on the bitmap's motors, then 0 on the same motors even if the bitmap changes, and the state is idle again; it is broadcasting in between |
| MotorIding.MotorIding.constructor | src/modules/src/motor_iding.c:31-44 | the defaults: ID 16000, bitmap 0001, nothing requested, idle |
| MotorIding.MotorIding.SetMotors | src/modules/src/motor_iding.c:87-93 | the loop appends exactly the calls of MaskCalls and changes no state |
| MotorIding.MotorIding.UpdateIdingSound | src/modules/src/motor_iding.c:40-96 | performs UpdateIdingSoundStep on the fields and appends its calls |

## Left out

- FreeRTOS timers, the worker and the init and test functions are left out.
  These are `motorTransmissionInit`'s timer part, `periodic_task`,
  `motorSoundInit`, `motorSoundTimer`, `motorIdingInit`, `motorIdingTask`,
  `motorTransmissionTest`, `motorChirpTest`, `motorIdingTest` and
  `currentMotorParams`. They are operating-system plumbing; a tick is one
  method call.
- The `PARAM_*` and `LOG_*` blocks are left out. Parameters are plain fields
  that the environment may change between ticks. The beacon's `Env` models
  this for its three parameters.
- The `message` parameter of `motor_transmission.c` is not modelled, because
  no code reads it.
- `motorsSetFrequency` and `transmit_func` are foreign code. Each call is
  appended to a log. The function pointer is fixed by construction: the
  M1–M3 engine feeds `transmit_motor123` and the M4 engine feeds
  `transmit_motor4`.
- MotorTransmission.MotorTransmission.TickEnginesNow: the wrapper forwarding
  of a call is done after the engine method returns, not inside it. An
  engine call makes at most one call, so the calls come out in the same
  order.
- The float arithmetic of `setupMessage` (`motor_chirp.c:81-82`) is left
  out. `ChirpParams` holds its integer results, `totalFChange` and `dF`.
  The defaults 1000 and 100 are what those expressions give for
  {13000 or 15000, 500, 2000}.
- `chirpLen` and `chirpSlope` of `MotorChirpParameters` (`motor_chirp.h`)
  are replaced by the two integers they produce, as the previous line says.
  `BROADCAST_LENGTH` of `motor_chirp.c` is left out because no code reads
  it. `acoustic_comms_scheme.h` declares a function-pointer interface with
  no behaviour, and is left out.
- `motors.h` is not part of this model. Motor ids are 0..3, `MOTOR_M1` to
  `MOTOR_M4` are 0 to 3, and `NBR_OF_MOTORS` is 4.
  The beacon logs its `uint32_t` frequency unconverted, because the parameter
  type of `motorsSetFrequency` is declared there.
- Concurrency is left out: the worker runs every tick function to completion.
- MotorTransmission.DriverSendsByte follows a stream that starts from two
  idle engines with equal symbol lengths, which the code always creates. A
  stream started while an engine is still busy, which leaves error_code 255,
  is followed only through its first tick.
- MotorTransmission.UpdateTransmissionStep requires
  `chosen_char_a, chosen_char_b < 18`, as the driver invariant `DriverOk`
  does. Indexing past `hello` is undefined in C.
- MotorTransmission.UpdateTransmissionStep: pause is an `int` compared
  with an unsigned quotient. The model keeps pause in 0..65535/25, where the
  comparison is the plain one.
- Modulation.TransmitByte requires `1 <= symbol_len <= 127`. For
  `symbol_len >= 128`, LongSymbolNeverEnds states what happens instead.
- MotorChirp.ClimbRun and MotorChirp.FallRun assume that a sweep does not
  wrap a `uint16_t`: `topF + dF < 65536` for an up-chirp and
  `bottomF >= dF` for a down-chirp. Outside those bounds the step functions
  still model the wrap-around, but no lemma describes the resulting
  sequence.
- MotorChirp.PauseThenNextChirp and MotorChirp.StartNotFinished require
  `bottomF <= topF` and `dF < 32768`. With an inverted band or a negative
  `int16_t` step, a chirp can finish in the tick that sets it up.
- MotorChirp.SetupMessageStep states the centring of the band only when
  nothing wraps and `totalFChange >= 0`.
- The per-motor state of `motor_chirp.c` keeps its own arrays, but
  `chirpParams` and `message` are sequence fields. The code never updates
  them; only the parameter interface writes to them.
