# rasa6 firmware core, modelled in Dafny

This project models the integer control code of the rasa6 Eurorack firmware. The firmware is C++ for an 8-bit AVR, where `int` is 16 bits and `long` is 32 bits. The model covers:

- the `Envelope` ADSR state machine and the `Timer` stopwatch it runs on;
- the two MCP4822 DAC drivers, their 16-bit command word and their bit-banged SPI frame;
- the output routing and clock-edge detection of the older `EuroStep` base class;
- `Input` conditioning and the 8-sample moving average;
- the `Playback`, `Predelay` and fixed-interval trigger state machines;
- the quantiser's nearest-note search and the Euclidean rhythm writer;
- the register bookkeeping of the `Sn76489` sound-chip class;
- the integer helpers: clamp, powers, `get_bit` and two unit conversions.

## How the model is built

Each class whose methods update fields is a Dafny `class`. Fixed-size member arrays such as `dac_code[16]`, `ADSR_progress[4]` and `scale[12]` are `array`s. Each class has a ghost `State()` snapshot, and every method is proved to move that snapshot exactly as a pure transition function does: `ensures State() == F(old(State()), ...)`. The properties are then proved as lemmas about `F`.

The source's `Envelope`, `Input`, `Playback` and `Predelay` inherit from `Timer`. Here each of them owns a `Timer` object instead.

Hardware is modelled as follows:

- **Clock.** Each reading of `millis()` or `micros()` is a parameter `now`, bounded to a 32-bit `unsigned long`.
- **Samples.** `analogRead` and `digitalRead` samples are parameters.
- **Pin writes.** `digitalWrite` calls are appended to an event log (`wire`).
- **SN76489.** The chip write is a stub in the source. Each of its calls is appended to a log of the 16-bit buffer and the byte-2 flag it would send.

C semantics are written out where they matter:

- truncating `/` and `%` (`CInt.CDiv`, `CInt.CMod`);
- conversion of a signed value to `unsigned long` (`CInt.ToULong`), so an `ADSR_rate` of -1 compares as 2^32 - 1;
- the `long` accumulator of the moving average and of `power_long`;
- the 16-bit `int` of `power_int`.

The rates start at -1, and an unset rate is sometimes described as "advance on every tick". The code compares the rate with the unsigned `get_timer()`, so a stage with rate -1 never steps. The model follows the code (`EnvelopeSpec.UnsetRateNeverFires`).

## Model

| member | source | states |
|---|---|---|
| CInt.ToULong | rasa6-ao/attack_decay_release/EuroStep/backend/Timer.h:22 | conversion to `unsigned long` lands in [0, 2^32), is the identity there and adds 2^32 to a negative 32-bit value |
| CInt.CDivMagnitudeAndSign | rasa6-ao/attack_decay_release/EuroStep/backend/map_funcs.h:97 | C division truncates toward zero: the quotient's magnitude is the quotient of magnitudes, and its sign is negative exactly when the operands' signs differ |
| CInt.CModMagnitudeAndSign | rasa6-ao/attack_decay_release/EuroStep/backend/Mcp4822.h:66-67 | the C remainder is the remainder of the magnitudes with the dividend's sign: always smaller in magnitude than the divisor, and negative exactly when the dividend is (when non-zero) |
| Transfer.TransferValueToRange | rasa6-ao/attack_decay_release/EuroStep/backend/transfer_funcs.h:14-24 | min below the range, max above it, the value itself inside it |
| Transfer.ClampInRange | rasa6-do/rapid_trigger/eurotools-v2.h:145-155 | `clip_integer`/`transfer_value_to_range` with min <= max land in [min, max], and clamping twice equals clamping once |
| Transfer.ClampEmptyRange | rasa6-ao/attack_decay_release/EuroStep/backend/transfer_funcs.h:16-22 | with min > max the lower bound wins for values below it, and max is returned otherwise |
| Transfer.ClampMonotonic | rasa6-ao/attack_decay_release/EuroStep/backend/transfer_funcs.h:14-24 | clamping preserves order |
| Power.PowerInt | rasa6-ao/attack_decay_release/EuroStep/backend/power_funcs.h:8-14 | the loop returns a^b, and 1 when b <= 0; it stays a 16-bit int whenever the final power fits |
| Power.PowerLong | rasa6-do/rapid_trigger/eurotools-v2.h:93-99 | the same recurrence in a 32-bit long; agrees with `power_int` (both equal `PowerOf`) |
| Power.PowerRecurrence | rasa6-ao/attack_decay_release/EuroStep/backend/power_funcs.h:8-14 | power(a, 0) = 1, power(a, b+1) = a * power(a, b) for b >= 0, and 1 for negative b |
| Power.PowTwoPlaceValues | rasa6-ao/attack_decay_release/EuroStep/backend/Mcp4822.h:64-67 | 2^i for i in 0..11 is in [1, 2048], a safe divisor for the DAC bit loop |
| Power.PowPrefixFits | rasa6-do/rapid_trigger/eurotools-v2.h:85-91 | if a^b fits the C type, every intermediate accumulator value fits too |
| Bits.GetBit | rasa6-ao/attack_decay_release/EuroStep/backend/bit_funcs.h:13-16 | `get_bit` is always 0 or 1 |
| Bits.GetBitIsPatternBit | rasa6-ao/attack_decay_release/EuroStep/backend/bit_funcs.h:2-14 | for positions 0..7 it is bit `pos` of the byte's 8-bit pattern, counting from the least significant bit |
| Bits.GetBitZeroIsParity | rasa6-ao/attack_decay_release/EuroStep/backend/bit_funcs.h:14 | bit 0 is the parity of the byte |
| Bits.SplitThenReassemble | rasa6-ao/attack_decay_release/EuroStep/backend/bit_funcs.h:13-16 | the sum of `get_bit(b, i) * 2^i` over i = 0..7 is the byte read as unsigned: split then reassemble round-trips |
| Bits.ReassembleLowBits | rasa6-ao/attack_decay_release/EuroStep/backend/bit_funcs.h:13-16 | the low k bits reassemble to the byte modulo 2^k |
| Maps.MapMvToPercent | rasa6-ao/attack_decay_release/EuroStep/backend/map_funcs.h:96-99 | `mV / (max_mV / 100)` in C division; requires a divisor that is not zero |
| Maps.PercentInRange | rasa6-ao/attack_decay_release/EuroStep/backend/map_funcs.h:85-99 | for a maximum that is a multiple of 100 and 0 <= mV <= max, the documented range [0, 100] holds |
| Maps.PercentCanExceedHundred | rasa6-ao/attack_decay_release/EuroStep/backend/map_funcs.h:94-97 | for other maxima the documented range fails: 4950 mV of 4950 gives 101 |
| Maps.PercentMonotonic | rasa6-ao/attack_decay_release/EuroStep/backend/map_funcs.h:97 | the percentage never decreases as the voltage grows |
| Maps.MapHzToMicros | rasa6-ao/attack_decay_release/EuroStep/backend/map_funcs.h:129-132 | for Hz > 0 the period is the largest p with p * Hz <= 1000000 |
| Maps.PeriodAntitone | rasa6-ao/attack_decay_release/EuroStep/backend/map_funcs.h:129-132 | a higher frequency never gives a longer period |
| Maps.PeriodFitsIntFrom31Hz | rasa6-ao/attack_decay_release/EuroStep/backend/map_funcs.h:130 | the `int period_micros` fits a 16-bit `int` exactly from 31 Hz up; for 1..30 Hz the period exceeds 32767 |
| Clock.Elapsed | rasa6-ao/attack_decay_release/EuroStep/backend/Timer.h:50-53 | the elapsed time is an `unsigned long`, and the corrected reset point plus it is the reading |
| Clock.ElapsedCases | rasa6-ao/attack_decay_release/EuroStep/backend/Timer.h:50-53 | when now >= last_timer: `now - last_timer`, reset point kept; on a wrapped reading: 0, reset point moved to now |
| Clock.WrapCatchIsStable | rasa6-ao/attack_decay_release/EuroStep/backend/Timer.h:51-52 | after the wrap-around catch, reading again at the same time gives 0 and leaves the reset point |
| Clock.Timer.constructor | rasa6-ao/attack_decay_release/EuroStep/backend/Timer.h:21-22 | defaults: milliseconds, reset point 0 |
| Clock.Timer.UseMicros | rasa6-ao/attack_decay_release/EuroStep/backend/Timer.h:38-40 | only the unit flag changes, to microseconds |
| Clock.Timer.UseMillis | rasa6-ao/attack_decay_release/EuroStep/backend/Timer.h:42-44 | only the unit flag changes, to milliseconds |
| Clock.Timer.GetTimer | rasa6-ao/attack_decay_release/EuroStep/backend/Timer.h:50-53 | returns `Elapsed` and moves the reset point only on a wrapped reading; the result is never negative |
| Clock.Timer.ResetTimer | rasa6-ao/attack_decay_release/EuroStep/backend/Timer.h:55-57 | the reset point becomes the current reading; the unit is kept |
| EnvelopeSpec.TurnOnGateEffect | rasa6-ao/attack_decay_release/EuroStep/add-ons/Envelope.h:93-107 | Attack becomes the only stage and the timer resets; the interrupted flag is set iff the value is above the minimum and is never cleared; the value is untouched |
| EnvelopeSpec.TurnOffGateEffect | rasa6-ao/attack_decay_release/EuroStep/add-ons/Envelope.h:109-116 | Release becomes the only stage from any state, idle included; the timer resets; value and interrupted flag are untouched |
| EnvelopeSpec.SustainAndIdleAreStill | rasa6-ao/attack_decay_release/EuroStep/add-ons/Envelope.h:181-184 | in Sustain or idle a tick changes nothing: value, flags and timer |
| EnvelopeSpec.EasingTick | rasa6-ao/attack_decay_release/EuroStep/add-ons/Envelope.h:122-132 | an interrupted Attack tick lowers the value by 15 % of the range without a timer check; at or below the minimum it clamps there and clears the flag; the stage stays Attack |
| EnvelopeSpec.EasingIsBounded | rasa6-ao/attack_decay_release/EuroStep/add-ons/Envelope.h:149-156 | while easing, no tick raises the value or lowers it by more than the easing amount |
| EnvelopeSpec.TimedStageWaits | rasa6-ao/attack_decay_release/EuroStep/add-ons/Envelope.h:134-136 | a timed stage whose rate is not exceeded changes nothing but the timer's wrap-around catch |
| EnvelopeSpec.TimedStageFires | rasa6-ao/attack_decay_release/EuroStep/add-ons/Envelope.h:134-199 | a due stage moves the value by its step and resets the timer; overshooting clamps and moves on: Attack to Decay at the maximum, Decay to Sustain at the sustain level, Release to idle at the minimum |
| EnvelopeSpec.UnsetRateNeverFires | rasa6-ao/attack_decay_release/EuroStep/add-ons/Envelope.h:51 | a rate left at -1 is 2^32 - 1 as an `unsigned long`, so that stage never steps |
| EnvelopeSpec.AdvanceKeepsInv | rasa6-ao/attack_decay_release/EuroStep/add-ons/Envelope.h:205-216 | with sane settings a tick keeps at most one stage flag set and the value in [min_limit, max_limit] |
| EnvelopeSpec.StepKeepsInv | rasa6-ao/attack_decay_release/EuroStep/add-ons/Envelope.h:93-116 | gate on, gate off and tick each keep the invariant |
| EnvelopeSpec.RunKeepsInv | rasa6-ao/attack_decay_release/EuroStep/add-ons/Envelope.h:93-216 | across any sequence of gate events and ticks: at most one stage at every point, value within the limits |
| EnvelopeSpec.RunAppend | rasa6-ao/attack_decay_release/EuroStep/add-ons/Envelope.h:205-216 | running two command sequences one after the other is running their concatenation |
| EnvelopeSpec.AttackRamp | rasa6-ao/attack_decay_release/EuroStep/add-ons/Envelope.h:134-147 | ticks spaced by more than the rate raise the value by one step each until the maximum |
| EnvelopeSpec.ReleaseRamp | rasa6-ao/attack_decay_release/EuroStep/add-ons/Envelope.h:186-199 | ticks spaced by more than the rate lower the value by one step each until the minimum |
| EnvelopeSpec.FinalTick | rasa6-ao/attack_decay_release/EuroStep/add-ons/Envelope.h:134-199 | the last of a run of spaced ticks fires its stage |
| EnvelopeSpec.ScenarioFullAttack | rasa6-ao/attack_decay_release/EuroStep/add-ons/Envelope.h:93-147 | range 0..4000, rate 10, step 1 %: a gate-on from 0 and 100 spaced ticks end at 4000 in Decay |
| EnvelopeSpec.ScenarioFullRelease | rasa6-ao/attack_decay_release/EuroStep/add-ons/Envelope.h:109-199 | sustain 1000, release step 5 %: a gate-off and five spaced ticks end at 0 with every stage off |
| Envelopes.Envelope.constructor | rasa6-ao/attack_decay_release/EuroStep/add-ons/Envelope.h:36-54 | defaults: range 0..4000, rates -1, steps 1, idle, not interrupted, timer in milliseconds |
| Envelopes.Envelope.GetCurrentValue | rasa6-ao/attack_decay_release/EuroStep/add-ons/Envelope.h:62-64 | returns the value |
| Envelopes.Envelope.SetEnvelopeLimits | rasa6-ao/attack_decay_release/EuroStep/add-ons/Envelope.h:71-75 | stores the limits and keeps `delta_limit == max_limit - min_limit` |
| Envelopes.Envelope.SetSustainLevel | rasa6-ao/attack_decay_release/EuroStep/add-ons/Envelope.h:77-79 | only the sustain level changes |
| Envelopes.Envelope.SetAdsrRate | rasa6-ao/attack_decay_release/EuroStep/add-ons/Envelope.h:81-83 | only the rate of that stage changes |
| Envelopes.Envelope.SetAdsrStep | rasa6-ao/attack_decay_release/EuroStep/add-ons/Envelope.h:85-87 | only the step of that stage changes |
| Envelopes.Envelope.TurnOnGate | rasa6-ao/attack_decay_release/EuroStep/add-ons/Envelope.h:93-107 | moves the object as `EnvelopeSpec.TurnOnGate` and sets `gate_on` |
| Envelopes.Envelope.TurnOffGate | rasa6-ao/attack_decay_release/EuroStep/add-ons/Envelope.h:109-116 | moves the object as `EnvelopeSpec.TurnOffGate` and clears `gate_on` |
| Envelopes.Envelope.EndAdsrSafely | rasa6-ao/attack_decay_release/EuroStep/add-ons/Envelope.h:122-132 | moves the object as `EnvelopeSpec.EndAdsrSafely` |
| Envelopes.Envelope.ContinueAttackAsNormal | rasa6-ao/attack_decay_release/EuroStep/add-ons/Envelope.h:134-147 | moves the object as `EnvelopeSpec.ContinueAttackAsNormal` |
| Envelopes.Envelope.Attack | rasa6-ao/attack_decay_release/EuroStep/add-ons/Envelope.h:149-156 | moves the object as `EnvelopeSpec.Attack` |
| Envelopes.Envelope.Decay | rasa6-ao/attack_decay_release/EuroStep/add-ons/Envelope.h:162-175 | moves the object as `EnvelopeSpec.Decay` |
| Envelopes.Envelope.Sustain | rasa6-ao/attack_decay_release/EuroStep/add-ons/Envelope.h:181-184 | changes nothing |
| Envelopes.Envelope.Release | rasa6-ao/attack_decay_release/EuroStep/add-ons/Envelope.h:186-199 | moves the object as `EnvelopeSpec.Release` |
| Envelopes.Envelope.AdvanceEnvelope | rasa6-ao/attack_decay_release/EuroStep/add-ons/Envelope.h:205-216 | moves the object as `EnvelopeSpec.AdvanceEnvelope`; the timer keeps its unit |
| Pins.ShiftOutSnoc | rasa6-ao/attack_decay_release/EuroStep/backend/Mcp4822.h:121-129 | clocking one more bit appends its SDI write and SCK pulse |
| Pins.ShiftOutLength | rasa6-ao/attack_decay_release/EuroStep/backend/Mcp4822.h:121-129 | three pin writes per bit |
| Pins.FrameReceivesBits | rasa6-ao/attack_decay_release/EuroStep/backend/Mcp4822.h:117-140 | with distinct CS, SCK and SDI pins, a receiver sampling SDI on each SCK rise reads back exactly the bits, in order |
| Pins.WriteFrame | rasa6-ao/attack_decay_release/EuroStep/backend/Mcp4822.h:117-140 | emits CS low, 16 × (SDI = bit, SCK high, SCK low), CS high and, when asked, an LDAC low-high pulse |
| Pins.FrameLength | rasa6-ao/no_attack_release/mcp4822.h:52-76 | a frame is 50 pin writes, or 52 with the LDAC pulse |
| DacCodec.WriteCodeBits | rasa6-ao/attack_decay_release/EuroStep/backend/Mcp4822.h:62-69 | the countdown loop leaves positions 0..3 alone and writes the digits of the value, most significant first, into positions 4..15 |
| DacCodec.LoopBitsAreDigits | rasa6-ao/no_attack_release/mcp4822.h:30-37 | the bits the loop writes, round by round, are the digits of the value |
| DacCodec.TwelveBitRoundTrip | rasa6-ao/attack_decay_release/EuroStep/backend/Mcp4822.h:62-69 | any value 0..4095 written by the loop decodes back to itself, read most significant bit first |
| DacCodec.DigitsRoundTrip | rasa6-ao/attack_decay_release/EuroStep/backend/Mcp4822.h:62-69 | digits of a value that fits in i+1 bits decode back to it |
| DacCodec.DigitsOfFullPower | rasa6-ao/attack_decay_release/EuroStep/backend/Mcp4822.h:64-68 | a value of 2^(i+1) puts quotient 2 (stored as true) in the top place and zeros elsewhere, decoding to half the value |
| DacCodec.TwelveBitOverflow | rasa6-ao/attack_decay_release/EuroStep/backend/Mcp4822.h:64-68 | 4096 written to the 12-bit field reads back as 2048 |
| DacCodec.InterpretWord | rasa6-ao/attack_decay_release/EuroStep/backend/Mcp4822.h:75-96 | the chip reads back the channel, the gain, the active bit and the 12-bit code the driver wrote |
| Mcp4822Spec.SendWithoutCsIsSkipped | rasa6-ao/attack_decay_release/EuroStep/backend/Mcp4822.h:153 | with `pin_cs` at -1 a send changes nothing: no pin writes, cache and word unchanged |
| Mcp4822Spec.SendWritesIffChanged | rasa6-ao/attack_decay_release/EuroStep/backend/Mcp4822.h:153-160 | a frame goes out, and the cache takes the clamped voltage, iff the clamped voltage differs from the cache; otherwise nothing changes |
| Mcp4822Spec.SharedCacheSkipsOtherChannel | rasa6-ao/attack_decay_release/EuroStep/backend/Mcp4822.h:146-162 | one cache for both channels: the same voltage sent to B right after A emits nothing |
| Mcp4822Spec.SendIsIdempotent | rasa6-ao/attack_decay_release/EuroStep/backend/Mcp4822.h:146-162 | repeating a send changes nothing |
| Mcp4822Spec.ControlBits | rasa6-ao/attack_decay_release/EuroStep/backend/Mcp4822.h:75-92 | bit 0 is the channel-B flag, bit 1 is never written, bit 2 is clear (gain 2) exactly above 2048 mV, bit 3 is set |
| Mcp4822Spec.AsWrittenField | rasa6-ao/attack_decay_release/EuroStep/backend/Mcp4822.h:88-95 | for every clamped voltage except 2048, `2 * mV / gain` fits 12 bits and times the gain is twice the voltage |
| Mcp4822Spec.AsWrittenOutputExact | rasa6-ao/attack_decay_release/EuroStep/backend/Mcp4822.h:75-96 | every clamped voltage except 2048 mV is reproduced exactly by the chip on the chosen channel |
| Mcp4822Spec.HalfVoltageAt2048 | rasa6-ao/attack_decay_release/EuroStep/backend/Mcp4822.h:88-96 | at 2048 mV the field receives 4096, the chip reads 2048 and outputs 1024 mV |
| Mcp4822Spec.CorrectedField | rasa6-ao/attack_decay_release/EuroStep/backend/Mcp4822.h:88-95 | with gain 2 from 2048 mV upward the field always fits and times the gain is twice the voltage |
| Mcp4822Spec.CorrectedOutputExact | rasa6-ao/attack_decay_release/EuroStep/backend/Mcp4822.h:153-158 | with the corrected threshold every voltage is reproduced exactly after clamping to [0, 4095] |
| Mcp4822Spec.SentFrameReachesChip | rasa6-ao/attack_decay_release/EuroStep/backend/Mcp4822.h:146-162 | a send that goes out carries the new word on the wire, and the chosen channel outputs the clamped voltage unless it is 2048 mV |
| Mcp4822Driver.ClampToDacRange | rasa6-ao/attack_decay_release/EuroStep/backend/Mcp4822.h:154-155 | the voltage is clamped to [0, 4095] and kept when inside |
| Mcp4822Driver.Mcp4822.constructor | rasa6-ao/attack_decay_release/EuroStep/backend/Mcp4822.h:24-34 | defaults: every pin -1, all bits clear, gain 1, cache 0 |
| Mcp4822Driver.Mcp4822.EnableChannelA | rasa6-ao/attack_decay_release/EuroStep/backend/Mcp4822.h:40-42 | clears bit 0 only |
| Mcp4822Driver.Mcp4822.EnableChannelB | rasa6-ao/attack_decay_release/EuroStep/backend/Mcp4822.h:44-46 | sets bit 0 only |
| Mcp4822Driver.Mcp4822.EnableGain | rasa6-ao/attack_decay_release/EuroStep/backend/Mcp4822.h:48-51 | clears bit 2 and sets gain 2 |
| Mcp4822Driver.Mcp4822.DisableGain | rasa6-ao/attack_decay_release/EuroStep/backend/Mcp4822.h:53-56 | sets bit 2 and gain 1 |
| Mcp4822Driver.Mcp4822.TurnOnDac | rasa6-ao/attack_decay_release/EuroStep/backend/Mcp4822.h:58-60 | sets bit 3 only |
| Mcp4822Driver.Mcp4822.MapDacValueToDacCode | rasa6-ao/attack_decay_release/EuroStep/backend/Mcp4822.h:62-69 | positions 4..15 receive the digits of the value, most significant first |
| Mcp4822Driver.Mcp4822.UpdateDacCode | rasa6-ao/attack_decay_release/EuroStep/backend/Mcp4822.h:75-111 | moves the object as `Mcp4822Spec.UpdateDacCode` |
| Mcp4822Driver.Mcp4822.WriteDacCode | rasa6-ao/attack_decay_release/EuroStep/backend/Mcp4822.h:117-140 | appends the frame of the word, LDAC pulse when `pin_ldac > -1` |
| Mcp4822Driver.Mcp4822.SendToDac | rasa6-ao/attack_decay_release/EuroStep/backend/Mcp4822.h:146-162 | moves the object as `Mcp4822Spec.SendToDac` |
| Mcp4822Driver.Mcp4822.SetPins | rasa6-ao/attack_decay_release/EuroStep/backend/Mcp4822.h:170-175 | only the four pins change |
| Mcp4822Driver.Mcp4822.SendToChannelA | rasa6-ao/attack_decay_release/EuroStep/backend/Mcp4822.h:185-187 | a send with the channel-B flag false |
| Mcp4822Driver.Mcp4822.SendToChannelB | rasa6-ao/attack_decay_release/EuroStep/backend/Mcp4822.h:189-191 | a send with the channel-B flag true |
| Mcp4822Legacy.ClampToLegacyRange | rasa6-ao/no_attack_release/mcp4822.h:7-12 | the voltage is clamped to [0, 4096]; 4096 is allowed here |
| Mcp4822Legacy.UpdateDacCode | rasa6-ao/no_attack_release/mcp4822.h:1-50 | the array becomes the encoded word: channel, untouched bit 1, inverted gain bit, active bit, digits of the value |
| Mcp4822Legacy.DacValueIsTwiceOverGain | rasa6-ao/no_attack_release/mcp4822.h:25-26 | `4096 * v / gain / 2048`, left to right in integers, equals `2 * v / gain` |
| Mcp4822Legacy.ControlBits | rasa6-ao/no_attack_release/mcp4822.h:15-22 | bit 0 the channel, bit 1 untouched, bit 2 clear exactly above 2048 mV, bit 3 set |
| Mcp4822Legacy.OutputOfEncode | rasa6-ao/no_attack_release/mcp4822.h:1-50 | the chip reproduces every clamped voltage except 2048 and 4096 mV, where it outputs half |
| Mcp4822Legacy.FullScaleOverflow | rasa6-ao/no_attack_release/mcp4822.h:10-37 | from 4096 mV up the value is 4096 with gain 2, and the chip reads code 2048 |
| Mcp4822Legacy.WriteDacCode | rasa6-ao/no_attack_release/mcp4822.h:52-76 | `data` is not changed; the frame is emitted with the LDAC pulse only for `PIN_LDAC > 0` |
| Mcp4822Legacy.LdacGuardsDifferOnlyAtPinZero | rasa6-ao/no_attack_release/mcp4822.h:70-73 | the `> 0` and `> -1` LDAC guards give the same frame except for pin 0 |
| EuroStepLegacy.RoutesAreDistinct | rasa6-ao/attack_decay/EuroStep.h:189-217 | analog events 1..4 go to chip A channel A, chip A channel B, chip B channel A, chip B channel B: four distinct outputs |
| EuroStepLegacy.DacEventCountsAnalogOutputs | rasa6-ao/attack_decay/EuroStep.h:169-177 | `dac_event` counts every analog output, written or not |
| EuroStepLegacy.UnchangedOutputsWriteNothing | rasa6-ao/attack_decay/EuroStep.h:167-239 | outputs equal to their previous value write no pin and leave the DAC array alone |
| EuroStepLegacy.WireOnlyGrows | rasa6-ao/attack_decay/EuroStep.h:167-239 | `write_outputs` only appends pin writes |
| EuroStepLegacy.OneAnalogOutput | rasa6-ao/attack_decay/EuroStep.h:189-209 | a single changed analog output sends exactly one frame, its word on channel A of chip A |
| EuroStepLegacy.ClockStepFiresAtMostOnce | rasa6-ao/attack_decay/EuroStep.h:139-161 | at most one hook per call: rise iff high and last low, fall iff low and last high; the remembered state is the sample |
| EuroStepLegacy.ClockRunAlternates | rasa6-ao/attack_decay/EuroStep.h:137-161 | over any samples the hooks alternate, starting with rise from the initial low state |
| EuroStepLegacy.ElapsedMillis | rasa6-ao/attack_decay/EuroStep.h:265-267 | `millis() - last_timer` in 32-bit arithmetic is a `long` |
| EuroStepLegacy.ElapsedSurvivesWrap | rasa6-ao/attack_decay/EuroStep.h:260-267 | after a reset, a reading d ms later (modulo 2^32) gives d for every d < 2^31 |
| EuroStepLegacy.EuroStep.constructor | rasa6-ao/attack_decay/EuroStep.h:10-20 | clock disabled and low, output history 0, no writes |
| EuroStepLegacy.EuroStep.SendToOutput | rasa6-ao/attack_decay/EuroStep.h:26-28 | only `output_values[index]` changes |
| EuroStepLegacy.EuroStep.EnableClockEvents | rasa6-ao/attack_decay/EuroStep.h:132-135 | only the clock input changes; -1 disables |
| EuroStepLegacy.EuroStep.RunClockEvents | rasa6-ao/attack_decay/EuroStep.h:139-161 | disabled: nothing happens; enabled: the edge step on the clock input's value |
| EuroStepLegacy.DigitalLevelNarrows | rasa6-ao/attack_decay/EuroStep.h:230-231 | `digitalWrite` takes its value as a `uint8_t`: the level depends only on the low byte, 1..255 are HIGH, and 0, 256 and 4096 drive the pin LOW |
| EuroStepLegacy.EuroStep.WriteOutputs | rasa6-ao/attack_decay/EuroStep.h:167-239 | the counter, DAC array and pin writes follow `WriteOutputsSpec`, a changed digital output writing the level of its low byte; afterwards `output_values_old` equals `output_values` |
| EuroStepLegacy.EuroStep.WriteOutput | rasa6-ao/attack_decay/EuroStep.h:172-233 | one output's loop body follows `WriteOne`: an analog output is counted and sent when changed, a changed digital output writes the level of its low byte |
| EuroStepLegacy.EuroStep.WriteAnalogOutput | rasa6-ao/attack_decay/EuroStep.h:176-218 | counts the event and, for a changed value, encodes and sends it |
| EuroStepLegacy.EuroStep.EncodeForEvent | rasa6-ao/attack_decay/EuroStep.h:189-201 | the word for the value, on channel A for events 1 and 3 and B otherwise |
| EuroStepLegacy.EuroStep.SendForEvent | rasa6-ao/attack_decay/EuroStep.h:203-217 | the frame to chip A for events 1 and 2, to chip B otherwise |
| EuroStepLegacy.EuroStep.ResetTimer | rasa6-ao/attack_decay/EuroStep.h:261-263 | the reading stored as a `long` |
| EuroStepLegacy.EuroStep.GetTimer | rasa6-ao/attack_decay/EuroStep.h:265-267 | returns `ElapsedMillis` |
| Smoothing.ReadAnalogMvSmooth | rasa6-ao/attack_decay_release/EuroStep/backend/read_funcs.h:63-85 | entries 0..6 take the old entries 1..7, entry 7 the sample, and the result is the truncated average of the new history |
| Smoothing.SumBounds | rasa6-do/rapid_trigger/eurotools-v2.h:35-39 | entries in [lo, hi] sum to between n * lo and n * hi |
| Smoothing.AverageInRange | rasa6-ao/attack_decay_release/EuroStep/backend/read_funcs.h:72-76 | non-negative readings in [lo, hi] average into [lo, hi] |
| Smoothing.AverageFitsInt | rasa6-ao/attack_decay_release/EuroStep/backend/read_funcs.h:72-84 | 16-bit readings sum within a `long` and average back into an `int` |
| Smoothing.SteadySignal | rasa6-do/rapid_trigger/eurotools-v2.h:26-48 | a constant history averages to that constant |
| Smoothing.EightSamplesFillHistory | rasa6-ao/attack_decay_release/EuroStep/backend/read_funcs.h:66-69 | after k <= 8 calls the history is the last 8 - k old entries followed by the k samples |
| Inputs.ConditionInRange | rasa6-ao/attack_decay_release/EuroStep/backend/Input.h:81-82 | after the clamp and the optional reversal the value lies in [0, max_input_mV] |
| Inputs.ReverseTwiceIsIdentity | rasa6-ao/attack_decay_release/EuroStep/backend/Input.h:82 | reversal is its own inverse on [0, max] |
| Inputs.DigitalReadsZeroOrMax | rasa6-ao/attack_decay_release/EuroStep/backend/Input.h:70-83 | a digital input reads exactly 0 or `max_input_mV` |
| Inputs.RoundToNearestMagnitude | rasa6-ao/attack_decay_release/EuroStep/backend/Input.h:66-68 | `x / v * v` is the magnitude of x rounded down to a multiple of the step's magnitude, with the sign of x |
| Inputs.RoundToNearestIsMultiple | rasa6-ao/attack_decay_release/EuroStep/backend/Input.h:66-68 | the result is a multiple of v |
| Inputs.RoundToNearestBounds | rasa6-ao/attack_decay_release/EuroStep/backend/Input.h:66-68 | rounds toward zero by less than the step's magnitude; with v = 1 it is the identity |
| Inputs.EdgesExclusive | rasa6-ao/attack_decay_release/EuroStep/backend/Input.h:167-175 | the two edge checks never hold at once, and exactly one holds when last and current sit on opposite sides of the threshold |
| Inputs.ReadIfReadyEffect | rasa6-ao/attack_decay_release/EuroStep/backend/Input.h:70-89 | a due read moves the current value into the last one and leaves the new value in [0, max_input_mV]; otherwise only the timer's wrap-around catch happens; neither touches the percentage or the timer unit |
| Inputs.OnceReadyAlwaysReady | rasa6-ao/attack_decay_release/EuroStep/backend/Input.h:85-89 | Input never resets its timer: once past the read frequency, every later reading is too |
| Inputs.Input.constructor | rasa6-ao/attack_decay_release/EuroStep/backend/Input.h:34-64 | the member initialisers |
| Inputs.Input.ReadInputImmediately | rasa6-ao/attack_decay_release/EuroStep/backend/Input.h:70-83 | the readings move as `ReadNow`: the last value takes the current one, the current one is the conditioned raw reading in [0, max_input_mV], a smoothed analog input shifts its history; the timer is untouched |
| Inputs.Input.ReadRaw | rasa6-ao/attack_decay_release/EuroStep/backend/Input.h:72-80 | the raw value is the digital conversion, the moving average of the shifted history, or the plain reading, as the settings say; only a smoothed analog input shifts the sample into the history |
| Inputs.Input.ReadInputIfReady | rasa6-ao/attack_decay_release/EuroStep/backend/Input.h:85-89 | the readings and timer move as `ReadIfReady`: the wrap-around catch, then a read only when the elapsed time exceeds the read frequency |
| Inputs.Input.GetInputAsMv | rasa6-ao/attack_decay_release/EuroStep/backend/Input.h:151-154 | the readings and timer move as `ReadIfReady`, and the result is the new current value: the conditioned sample when due, the old value otherwise |
| Inputs.Input.GetInputAsPercent | rasa6-ao/attack_decay_release/EuroStep/backend/Input.h:156-160 | the readings and timer move as `ReadIfReady`, then the percentage becomes `map_mV_to_percent` of the new value and is returned; within [0, 100] for an in-range value and a maximum that is a multiple of 100 |
| Inputs.Input.GetInputAsBool | rasa6-ao/attack_decay_release/EuroStep/backend/Input.h:162-165 | the readings and timer move as `ReadIfReady`; the result is true iff the new value reaches the threshold, so a rising edge implies true |
| Inputs.Input.CheckIfInputWentLowToHigh | rasa6-ao/attack_decay_release/EuroStep/backend/Input.h:167-170 | last below and current at or above the threshold |
| Inputs.Input.CheckIfInputWentHighToLow | rasa6-ao/attack_decay_release/EuroStep/backend/Input.h:172-175 | last at or above and current below the threshold |
| Inputs.Input.SetupAsJack | rasa6-ao/attack_decay_release/EuroStep/backend/Input.h:97-104 | pin and divider set, read every 2, smoothed |
| Inputs.Input.SetupAsPot | rasa6-ao/attack_decay_release/EuroStep/backend/Input.h:106-113 | no divider, read every 10, not smoothed |
| Inputs.Input.SetupAsSwitch | rasa6-ao/attack_decay_release/EuroStep/backend/Input.h:115-121 | read every 10, not smoothed, digital |
| Inputs.Input.SetReadFrequency | rasa6-ao/attack_decay_release/EuroStep/backend/Input.h:127-129 | only the read frequency changes |
| Inputs.Input.SetReadFrequencyOffset | rasa6-ao/attack_decay_release/EuroStep/backend/Input.h:131-133 | only the offset changes |
| Inputs.Input.SetMaxInputMv | rasa6-ao/attack_decay_release/EuroStep/backend/Input.h:135-137 | only the maximum changes |
| Inputs.Input.SetReverseInput | rasa6-ao/attack_decay_release/EuroStep/backend/Input.h:139-141 | only the reversal flag changes |
| Inputs.Input.SetDebug | rasa6-ao/attack_decay_release/EuroStep/backend/Input.h:143-145 | only the debug flag changes |
| PlaybackSpec.RunKeepsSettings | rasa6-ao/attack_decay_release/EuroStep/add-ons/Playback.h:171-193 | running never changes the settings, and a start position >= 0 keeps the next run safe |
| PlaybackSpec.RunPositionBounds | rasa6-ao/attack_decay_release/EuroStep/add-ons/Playback.h:174-189 | after a run the position is at least the start, and never past `audio_length` if neither was before |
| PlaybackSpec.PausedRunOnlyRaises | rasa6-ao/attack_decay_release/EuroStep/add-ons/Playback.h:174-178 | paused, a run only raises the position to the start |
| PlaybackSpec.EndOfAudio | rasa6-ao/attack_decay_release/EuroStep/add-ons/Playback.h:182-187 | at the end: back to the start with the timer reset, playing on when looping and paused otherwise |
| PlaybackSpec.RestartingHoldsPosition | rasa6-ao/attack_decay_release/EuroStep/add-ons/Playback.h:179-180 | while ramping the position does not move and the timer is not touched |
| PlaybackSpec.PlayingReadsOneSample | rasa6-ao/attack_decay_release/EuroStep/add-ons/Playback.h:159-165 | inside the array and due: the output is the sample at the position, the position moves by exactly one, the timer restarts |
| PlaybackSpec.OutputStaysByte | rasa6-ao/attack_decay_release/EuroStep/add-ons/Playback.h:159-165 | byte samples keep the output in 0..255 |
| PlaybackSpec.RestartEffect | rasa6-ao/attack_decay_release/EuroStep/add-ons/Playback.h:135-139 | restart: position = start, unpaused, ramping, timer reset |
| PlaybackSpec.StopSafelyShrinks | rasa6-ao/attack_decay_release/EuroStep/add-ons/Playback.h:141-157 | one ramp step moves the magnitude of the value toward 0 by the increment without crossing, and ends the ramp exactly at 0 |
| PlaybackSpec.StopSafelyReachesZero | rasa6-ao/attack_decay_release/EuroStep/add-ons/Playback.h:141-157 | with a positive increment, enough steps reach 0 and end the ramp |
| Playbacks.Playback.constructor | rasa6-ao/attack_decay_release/EuroStep/add-ons/Playback.h:42-60 | the member initialisers |
| Playbacks.Playback.SetPlaybackRate | rasa6-ao/attack_decay_release/EuroStep/add-ons/Playback.h:73-75 | only the rate changes |
| Playbacks.Playback.SetPlaybackRateFromHz | rasa6-ao/attack_decay_release/EuroStep/add-ons/Playback.h:78-81 | microseconds, rate `map_Hz_to_micros(Hz) / values_per_cycle` |
| Playbacks.Playback.SetPlaybackStep | rasa6-ao/attack_decay_release/EuroStep/add-ons/Playback.h:83-85 | only the unused step changes |
| Playbacks.Playback.SetAudio | rasa6-ao/attack_decay_release/EuroStep/add-ons/Playback.h:87-91 | the audio, its length and the ramp increment 16 |
| Playbacks.Playback.SetStartPosition | rasa6-ao/attack_decay_release/EuroStep/add-ons/Playback.h:93-95 | only the start changes |
| Playbacks.Playback.GetCurrentValue | rasa6-ao/attack_decay_release/EuroStep/add-ons/Playback.h:97-99 | returns the output |
| Playbacks.Playback.IsRestartingSafely | rasa6-ao/attack_decay_release/EuroStep/add-ons/Playback.h:101-103 | returns the ramp flag |
| Playbacks.Playback.PausePlayback | rasa6-ao/attack_decay_release/EuroStep/add-ons/Playback.h:113-115 | only the pause flag changes |
| Playbacks.Playback.UnpausePlayback | rasa6-ao/attack_decay_release/EuroStep/add-ons/Playback.h:117-119 | pause cleared |
| Playbacks.Playback.LoopPlayback | rasa6-ao/attack_decay_release/EuroStep/add-ons/Playback.h:121-123 | only the loop flag changes |
| Playbacks.Playback.UnloopPlayback | rasa6-ao/attack_decay_release/EuroStep/add-ons/Playback.h:125-127 | loop cleared |
| Playbacks.Playback.RewindPlayback | rasa6-ao/attack_decay_release/EuroStep/add-ons/Playback.h:129-133 | moves the object as `PlaybackSpec.Rewind` |
| Playbacks.Playback.LoopNow | rasa6-ao/attack_decay_release/EuroStep/add-ons/Playback.h:62-65 | moves the object as `PlaybackSpec.LoopNow` |
| Playbacks.Playback.RestartPlayback | rasa6-ao/attack_decay_release/EuroStep/add-ons/Playback.h:135-139 | moves the object as `PlaybackSpec.Restart` |
| Playbacks.Playback.StopPlaybackSafely | rasa6-ao/attack_decay_release/EuroStep/add-ons/Playback.h:141-157 | moves the object as `PlaybackSpec.StopSafely` |
| Playbacks.Playback.ContinuePlayback | rasa6-ao/attack_decay_release/EuroStep/add-ons/Playback.h:159-165 | moves the object as `PlaybackSpec.Continue` |
| Playbacks.Playback.RunPlayback | rasa6-ao/attack_decay_release/EuroStep/add-ons/Playback.h:171-193 | moves the object as `PlaybackSpec.Run` |
| Predelays.StepsKeepCoherent | rasa6-ao/attack_decay_release/EuroStep/add-ons/Predelay.h:22-42 | started and finished are never both true |
| Predelays.FinishedIsStable | rasa6-ao/attack_decay_release/EuroStep/add-ons/Predelay.h:37-42 | finished stays finished until a restart; a predelay never started never finishes |
| Predelays.AdvanceFinishesWhenDue | rasa6-ao/attack_decay_release/EuroStep/add-ons/Predelay.h:37-42 | a waiting predelay finishes iff the elapsed time reaches the duration |
| Predelays.RestartThenWait | rasa6-ao/attack_decay_release/EuroStep/add-ons/Predelay.h:29-42 | restarted with d >= 0, an advance d or more units later finishes it |
| Predelays.NegativeDurationWaitsLong | rasa6-ao/attack_decay_release/EuroStep/add-ons/Predelay.h:38 | a duration of -1 compares as 2^32 - 1 |
| Predelays.Predelay.constructor | rasa6-ao/attack_decay_release/EuroStep/add-ons/Predelay.h:22-24 | duration 1000, neither started nor finished |
| Predelays.Predelay.RestartPredelay | rasa6-ao/attack_decay_release/EuroStep/add-ons/Predelay.h:29-34 | duration set, started, not finished, timer reset |
| Predelays.Predelay.AdvancePredelay | rasa6-ao/attack_decay_release/EuroStep/add-ons/Predelay.h:37-42 | moves the object as `Advance`; the timer is read only while started |
| Predelays.Predelay.PredelayIsFinished | rasa6-ao/attack_decay_release/EuroStep/add-ons/Predelay.h:45-47 | returns the flag and changes nothing |
| QuantiserSpec.NoteIndex | rasa6-ao/attack_decay_release/EuroStep/add-ons/Quantiser.h:20-35 | a pitch class in 0..11, equal to C's `note % 12` from 0 up |
| QuantiserSpec.CountZeroIffNone | rasa6-ao/attack_decay_release/EuroStep/add-ons/Quantiser.h:77-85 | a count of 0 means no note is enabled |
| QuantiserSpec.RecountIsConsistent | rasa6-ao/attack_decay_release/EuroStep/add-ons/Quantiser.h:77-85 | the recount sets the flag iff no note is enabled |
| QuantiserSpec.DisableNoteIsConsistent | rasa6-ao/attack_decay_release/EuroStep/add-ons/Quantiser.h:70-86 | clears exactly that note (indices outside 0..11 ignored) and leaves count and flag describing the scale |
| QuantiserSpec.EnableNoteIsConsistent | rasa6-ao/attack_decay_release/EuroStep/add-ons/Quantiser.h:63-67 | the corrected enable sets exactly that note and clears the flag |
| QuantiserSpec.StaleFlagAfterEnable | rasa6-ao/attack_decay_release/EuroStep/add-ons/Quantiser.h:63-67 | as written, enable leaves the flag saying "nothing to quantise" although a note is enabled |
| QuantiserSpec.FreshQuantiserSearchesEmptyScale | rasa6-ao/attack_decay_release/EuroStep/add-ons/Quantiser.h:47-54 | as written, a fresh quantiser's flag is off with no note enabled, so no nearest note exists |
| QuantiserSpec.NearestIsUnique | rasa6-ao/attack_decay_release/EuroStep/add-ons/Quantiser.h:16-41 | the nearest note, ties upward, is unique |
| QuantiserSpec.NoteInScaleIsKept | rasa6-ao/attack_decay_release/EuroStep/add-ons/Quantiser.h:20-22 | a note of the scale is its own nearest note |
| QuantiserSpec.NearestAbove | rasa6-ao/attack_decay_release/EuroStep/add-ons/Quantiser.h:27-31 | the first in-scale note found upward at distance d+1 is nearest |
| QuantiserSpec.NearestBelow | rasa6-ao/attack_decay_release/EuroStep/add-ons/Quantiser.h:34-38 | the first in-scale note found downward at distance d+1 is nearest |
| QuantiserSpec.WindowBound | rasa6-ao/attack_decay_release/EuroStep/add-ons/Quantiser.h:24-39 | with a non-empty scale the search ends within six rounds |
| QuantiserSpec.NearestWithinSixSemitones | rasa6-ao/attack_decay_release/EuroStep/add-ons/Quantiser.h:16-41 | the nearest note is at most 6 semitones away |
| QuantiserSpec.IndexAgreesFromZero | rasa6-ao/attack_decay_release/EuroStep/add-ons/Quantiser.h:20 | for note numbers >= 0 the source's index is the pitch class |
| QuantiserSpec.LowNoteIndexOutsideScale | rasa6-ao/attack_decay_release/EuroStep/add-ons/Quantiser.h:34-36 | with only B enabled, the search from note 2 reaches -1, whose C index -1 is outside the array |
| Quantisers.FindNearestNoteInScale | rasa6-ao/attack_decay_release/EuroStep/add-ons/Quantiser.h:16-41 | with a non-empty scale, returns the nearest in-scale note, ties going up, within 6 semitones |
| Quantisers.Quantiser.constructor | rasa6-ao/attack_decay_release/EuroStep/add-ons/Quantiser.h:47-54 | corrected: no note enabled and `nothing_to_quantise` true, where the source starts it false (line 54; see `QuantiserSpec.FreshQuantiserSearchesEmptyScale`) |
| Quantisers.Quantiser.CountActiveNotes | rasa6-ao/attack_decay_release/EuroStep/add-ons/Quantiser.h:77-85 | count and flag recomputed from the scale |
| Quantisers.Quantiser.EnableNote | rasa6-ao/attack_decay_release/EuroStep/add-ons/Quantiser.h:63-67 | moves the settings as the corrected `EnableNote` |
| Quantisers.Quantiser.DisableNote | rasa6-ao/attack_decay_release/EuroStep/add-ons/Quantiser.h:70-86 | moves the settings as `DisableNote` |
| Quantisers.Quantiser.Run | rasa6-ao/attack_decay_release/EuroStep/add-ons/Quantiser.h:92-101 | with nothing to quantise the CV passes through and both tones keep their values; otherwise the incoming tone is stored and the CV becomes that of the nearest in-scale note |
| Quantisers.Quantiser.GetQuantisedCv | rasa6-ao/attack_decay_release/EuroStep/add-ons/Quantiser.h:108-110 | returns the quantised CV |
| Euclid.UpdateEuclidRule | rasa6-do/euclidean_rhythms/update_euclid_rule.h:5-49 | the array afterwards is the old array with exactly the writes of `Writes(s, b, o)` applied in order |
| Euclid.WritePass | rasa6-do/euclidean_rhythms/update_euclid_rule.h:16-47 | one pass of the outer loop performs that pass's writes and moves the counters as `NextPass` |
| Euclid.WriteBeat | rasa6-do/euclidean_rhythms/update_euclid_rule.h:22-32 | a 1 at the counter, then `per` rests, counter advanced by 1 + per |
| Euclid.WriteRests | rasa6-do/euclidean_rhythms/update_euclid_rule.h:27-32 | `per` rests from the counter on |
| Euclid.PerBeatExtras | rasa6-do/euclidean_rhythms/update_euclid_rule.h:7-11 | b - s = s * per + extras with extras < s |
| Euclid.PassCounters | rasa6-do/euclidean_rhythms/update_euclid_rule.h:36-47 | the do-nothing and do-something counters stay non-negative, and each pass while extra rests remain spends one |
| Euclid.WritesCount | rasa6-do/euclidean_rhythms/update_euclid_rule.h:7-48 | exactly b writes, exactly s of them 1, only 0s and 1s, every beat followed by at least (b-s)/s rests, all extra rests spent |
| Euclid.FirstBeat | rasa6-do/euclidean_rhythms/update_euclid_rule.h:13-22 | the first beat goes to slot o when o <= b, else to slot 1 |
| Euclid.SlotZeroUntouched | rasa6-do/euclidean_rhythms/update_euclid_rule.h:13-19 | with o >= 1, slot 0 is never written |
| Euclid.OffsetOneFillsCycle | rasa6-do/euclidean_rhythms/update_euclid_rule.h:13-48 | with o = 1 and b <= 31 the writes fill slots 1..b once each in order, s beats and b - s rests, all in range, other slots kept |
| Euclid.SingleBeatRunsPastCycle | rasa6-do/euclidean_rhythms/update_euclid_rule.h:17-31 | rests are not wrapped: with s = 1 and 2 <= o <= b the last rest lands past slot b |
| Euclid.FlattenCount | rasa6-do/euclidean_rhythms/update_euclid_rule.h:22-43 | every pass writes one 1 and otherwise 0s, beats followed by their rests |
| Euclid.ApplyAppend | rasa6-do/euclidean_rhythms/update_euclid_rule.h:22-44 | applying two lists of writes is applying their concatenation |
| Euclid.PassesPrefix | rasa6-do/euclidean_rhythms/update_euclid_rule.h:14 | the first m passes begin the first n |
| Euclid.OffsetOneInOrder | rasa6-do/euclidean_rhythms/update_euclid_rule.h:13-48 | from slot 1 the counter never wraps while room remains, and writes go to consecutive slots |
| Sn76489Spec.SelectorRoundTrip | rasa6-ao/attack_decay_release/EuroStep/chips/Sn76489.h:30-52 | the selector patterns 100, 101, 110, 111 read back as their channel, and every pattern with bit 0 set is one of them |
| Sn76489Spec.UseChannelSelects | rasa6-ao/attack_decay_release/EuroStep/chips/Sn76489.h:30-52 | selecting sets bits 0..2 to the channel's pattern and changes nothing else |
| Sn76489Spec.AttenuationRange | rasa6-ao/attack_decay_release/EuroStep/chips/Sn76489.h:75-76 | the clamp to [0, 31] then `31 - v`: in [0, 31], inverse of the volume in range, non-increasing in the volume |
| Sn76489Spec.WriteVolumeCaches | rasa6-ao/attack_decay_release/EuroStep/chips/Sn76489.h:74-82 | the chip is written, byte 2 off, iff the attenuation differs from the cache; the cache then holds it; tone cache, selector and pins untouched |
| Sn76489Spec.WriteVolumeIdempotent | rasa6-ao/attack_decay_release/EuroStep/chips/Sn76489.h:74-82 | writing the same volume twice writes once |
| Sn76489Spec.SharedVolumeCache | rasa6-ao/attack_decay_release/EuroStep/chips/Sn76489.h:74-82 | one volume cache for all channels: the same volume to a second channel writes nothing |
| Sn76489Spec.FirstFullVolumeDropped | rasa6-ao/attack_decay_release/EuroStep/chips/Sn76489.h:74-82 | a fresh chip drops full volume (attenuation 0 equals the initial cache) but sends volume 30 |
| Sn76489Spec.TurnOffSilences | rasa6-ao/attack_decay_release/EuroStep/chips/Sn76489.h:177-191 | turning off sends attenuation 31 unless already cached |
| Sn76489Spec.ToneSentAsVolume | rasa6-ao/attack_decay_release/EuroStep/chips/Sn76489.h:153-171 | as written a tone send never changes the tone cache; tone 440 on a fresh chip writes nothing |
| Sn76489Spec.SendToneCaches | rasa6-ao/attack_decay_release/EuroStep/chips/Sn76489.h:93-99 | the corrected tone send writes, byte 2 on and the channel selected, iff the tone changed; the tone cache holds it; volume cache untouched |
| Sn76489Driver.Sn76489.constructor | rasa6-ao/attack_decay_release/EuroStep/chips/Sn76489.h:17-22 | clear buffer, byte 2 on, both caches 0 |
| Sn76489Driver.Sn76489.EnableByte2 | rasa6-ao/attack_decay_release/EuroStep/chips/Sn76489.h:24-28 | sets the flag and clears bits 8 and 9 |
| Sn76489Driver.Sn76489.UseChannel | rasa6-ao/attack_decay_release/EuroStep/chips/Sn76489.h:30-52 | moves the buffer as `Sn76489Spec.UseChannel` |
| Sn76489Driver.Sn76489.WriteToChip | rasa6-ao/attack_decay_release/EuroStep/chips/Sn76489.h:58-63 | appends the buffer and byte-2 flag to the log |
| Sn76489Driver.Sn76489.MapVolumeToDacCode | rasa6-ao/attack_decay_release/EuroStep/chips/Sn76489.h:69-72 | byte 2 off |
| Sn76489Driver.Sn76489.MapToneToDacCode | rasa6-ao/attack_decay_release/EuroStep/chips/Sn76489.h:88-91 | byte 2 on |
| Sn76489Driver.Sn76489.WriteVolume | rasa6-ao/attack_decay_release/EuroStep/chips/Sn76489.h:74-82 | moves the object as `Sn76489Spec.WriteVolume` |
| Sn76489Driver.Sn76489.WriteTone | rasa6-ao/attack_decay_release/EuroStep/chips/Sn76489.h:93-99 | moves the object as `Sn76489Spec.WriteTone` |
| Sn76489Driver.Sn76489.SetPins | rasa6-ao/attack_decay_release/EuroStep/chips/Sn76489.h:104-115 | only the ten pins change |
| Sn76489Driver.Sn76489.SetMasterClock | rasa6-ao/attack_decay_release/EuroStep/chips/Sn76489.h:121-123 | only the clock changes |
| Sn76489Driver.Sn76489.SendVolumeToChannel | rasa6-ao/attack_decay_release/EuroStep/chips/Sn76489.h:129-147 | select, then write the volume |
| Sn76489Driver.Sn76489.SendToneToChannelAsWritten | rasa6-ao/attack_decay_release/EuroStep/chips/Sn76489.h:153-171 | as written: the same as a volume send, tone cache unchanged |
| Sn76489Driver.Sn76489.SendToneToChannel | rasa6-ao/attack_decay_release/EuroStep/chips/Sn76489.h:153-171 | corrected: select, then write the tone; the tone cache holds the value, the volume cache is unchanged |
| Sn76489Driver.Sn76489.TurnOffChannel | rasa6-ao/attack_decay_release/EuroStep/chips/Sn76489.h:177-191 | a volume-0 send; afterwards the cache holds attenuation 31 |
| RapidTrigger.StepPhases | rasa6-do/rapid_trigger/digitalWrite_at_fixed_interval.h:9-21 | high iff diff <= interval; the cycle finishes iff diff > 2 * interval (and > interval), always writing low then |
| RapidTrigger.InitialTimeMovesOnlyWhenFinished | rasa6-do/rapid_trigger/digitalWrite_at_fixed_interval.h:1-21 | `initial_time` changes only on a true return, and then to the second clock reading |
| RapidTrigger.CycleLength | rasa6-do/rapid_trigger/digitalWrite_at_fixed_interval.h:12-21 | with a positive interval the cycle starts high and finishes exactly after more than two intervals |
| RapidTrigger.NegativeIntervalNeverHigh | rasa6-do/rapid_trigger/digitalWrite_at_fixed_interval.h:12-21 | with a negative interval every call at or after the cycle start finishes low |
| RapidTrigger.Trigger.constructor | rasa6-do/rapid_trigger/digitalWrite_at_fixed_interval.h:1 | `initial_time` starts at 0 |
| RapidTrigger.Trigger.DigitalWriteAtFixedInterval | rasa6-do/rapid_trigger/digitalWrite_at_fixed_interval.h:2-25 | returns and stores what `Step` says, and writes the level to the pin once |

## Left out

- Hardware I/O: `pinMode`, `Serial` printing, `delay` and `delayMicroseconds` are not modelled. Clock readings and samples are parameters, and pin writes are event logs. Debug flags are stored where the model has them, but their printing is not modelled.
- Clock.Timer.GetTimer: the source reads the clock twice in `get_timer`; the model uses one reading.
- Floating point is not modelled. This covers `read_analog_mV`, `read_analog_bool` and `read_analog_pct`, `power_float` and `map_mV_to_Hz`, and the percent, range and note conversions of `map_funcs.h` and `eurotools-v2.h`. It also covers `get_current_value_as_percent` and Interpolate.h.
- Quantisers.Quantiser.Run: the mV to note number conversions use `float`, so they are parameters.
- EnvelopeSpec.StepSize: the source computes `.01 * step * delta_limit` in `double` and truncates once when storing. The model uses the integer delta `step * delta_limit / 100`.
- EnvelopeSpec.EaseSize: the source computes `0.15 * delta_limit` in `double`. The model uses `delta_limit * 15 / 100`.
- Maps.MapHzToMicros: the exact period is stated, while the source stores `1000000 / Hz` in a 16-bit `int`, which overflows for 1..30 Hz (`PeriodFitsIntFrom31Hz`); `Playbacks.Playback.SetPlaybackRateFromHz` inherits this.
- 16-bit overflow of `int` arithmetic is not modelled outside the stated places (the `power_int` bound, the smoothing sum, the legacy `long` value, the timers). Envelope values and Playback positions use mathematical integers.
- RapidTrigger.Trigger.DigitalWriteAtFixedInterval: the truncation of `millis()` into a 16-bit `int` is not modelled, nor is overflow of `2 * interval`. The two clock readings are parameters.
- Smoothing.ReadAnalogMvSmooth: the source's shift loop also reads `read_history[8]`, one past the buffer, at i = 7. The model shifts entries 1..7 into 0..6 only, because line 69 overwrites entry 7 anyway; the out-of-bounds read itself is undefined behaviour and is not modelled.
- Euclid.UpdateEuclidRule: it requires every write to land inside the 32-entry array. The source writes out of bounds otherwise, for example for offsets above 1 (`SingleBeatRunsPastCycle`). With o = 1 and b <= 31 the requirement holds (`OffsetOneFillsCycle`).
- Quantisers.FindNearestNoteInScale: it requires the scale to hold a note. With an empty scale the source loops forever (`FreshQuantiserSearchesEmptyScale`). The search uses the non-negative pitch class, not C's negative remainder (`LowNoteIndexOutsideScale`).
- Sn76489: `write_to_chip`, `map_volume_to_dac_code` and `map_tone_to_dac_code` are unfinished in the source and never fill in volume or tone bits. The model records what `write_to_chip` would send in a log.
- Mcp4822Driver.Mcp4822: `set_debug` only switches printing and is not modelled.
- Playbacks.Playback: the destructor's `delete[]` and the pointer aliasing of `set_audio` are not modelled. The audio is a sequence the player only reads.
- EuroStepLegacy.EuroStep: `start`, `read_inputs`, `read_pots`, `read_switches` and `step` are pin setup and float reads, and are not modelled. The empty virtual hooks are recorded as clock edges.
- Quantiser `run` has no return statement in the source. The model's `Run` returns nothing and stores the CV.
- The newer attack_decay_release/EuroStep/EuroStep.h, the YM2149 and YM2612 chip drivers, Interpolate.h and the hardware pin tables are not part of this model.

## Findings

| source | as written | input that shows it | evidently intended | confidence | as-written member | corrected member |
|---|---|---|---|---|---|---|
| rasa6-ao/attack_decay_release/EuroStep/backend/Mcp4822.h:88-96 | gain 2 only strictly above 2048 mV, so `2 * mV / gain` is 4096 at 2048 mV | mV = 2048: the 12-bit field reads 2048 and the chip outputs 1024 mV | gain 2 from 2048 mV upward (`mV >= 2048`) | not executed | Mcp4822Spec.HalfVoltageAt2048 | Mcp4822Spec.CorrectedOutputExact |
| rasa6-ao/no_attack_release/mcp4822.h:10-26 | clamp to 4096 and `4096 * v / gain / 2048` give value 4096 at 2048 and 4096 mV | outVolt = 5000: clamped to 4096, the chip reads code 2048 with gain 2 and outputs 2048 mV | clamp to 4095 and the threshold `>= 2048`, as the class driver's comment says the chip cannot write 4096 | not executed | Mcp4822Legacy.FullScaleOverflow | Mcp4822Spec.CorrectedOutputExact |
| rasa6-ao/attack_decay_release/EuroStep/add-ons/Quantiser.h:63-67 | `enable_note` does not recount, so `nothing_to_quantise` stays true | fresh quantiser, `disable_note(0)`, `enable_note(4)`: E is enabled but `run` passes the CV through | recount after enabling, as `disable_note` does | not executed | QuantiserSpec.StaleFlagAfterEnable | QuantiserSpec.EnableNoteIsConsistent |
| rasa6-ao/attack_decay_release/EuroStep/add-ons/Quantiser.h:47,54 | a fresh quantiser has no note and `nothing_to_quantise` false | `run` on a fresh quantiser searches an empty scale and never returns | `nothing_to_quantise` true initially | not executed | QuantiserSpec.FreshQuantiserSearchesEmptyScale | Quantisers.Quantiser.constructor |
| rasa6-ao/attack_decay_release/EuroStep/add-ons/Quantiser.h:34-36 | `next_note_lower % 12` is negative for a negative note | only B enabled, note 2: the search reaches -1 and reads `scale[-1]` | a floor remainder into 0..11 | not executed | QuantiserSpec.LowNoteIndexOutsideScale | Quantisers.FindNearestNoteInScale |
| rasa6-ao/attack_decay_release/EuroStep/chips/Sn76489.h:153-171 | `send_tone_to_channel_*` call `write_volume` | tone 440 on a fresh chip: clamped to volume 31, attenuation 0 equals the cache, nothing is written and the tone cache stays 0 | call `write_tone` | not executed | Sn76489Driver.Sn76489.SendToneToChannelAsWritten | Sn76489Driver.Sn76489.SendToneToChannel |
