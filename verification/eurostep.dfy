/** The output, clock and timer part of the older `EuroStep` class in
    attack_decay/EuroStep.h: analog outputs go through the older MCP4822 driver
    (mcp4822_legacy.dfy), digital outputs are single pin writes, and one input
    can serve as a clock whose edges call the rise and fall hooks. Pin writes are
    appended to `wire`; the hooks, which the base class leaves empty, are
    recorded in `clockEdges`; the millisecond clock is the parameter `now`. */
module EuroStepLegacy {
  import opened CInt
  import opened DivMod
  import opened Pins
  import ML = Mcp4822Legacy

  /** The pin table of the hardware: one pin per output, and the CS, SCK, SDI
      and LDAC pins of the two DAC chips. */
  datatype Hardware = Hardware(pinsOutput: seq<int>, pinsDacA: seq<int>, pinsDacB: seq<int>)

  predicate HardwareFits(hw: Hardware, outputs: nat)
  {
    |hw.pinsOutput| == outputs && |hw.pinsDacA| == 4 && |hw.pinsDacB| == 4
  }

  //
  // Routing of analog outputs
  //

  /** The 1st and 3rd analog outputs use channel A, the others channel B. */
  function UsesChannelB(dacEvent: int): bool
  {
    !(dacEvent == 1 || dacEvent == 3)
  }

  /** The 1st and 2nd analog outputs go to chip A, the others to chip B. */
  function UsesChipA(dacEvent: int): bool
  {
    dacEvent == 1 || dacEvent == 2
  }

  /** The four analog outputs the firmware allows land on four different DAC
      outputs: chip A channel A, chip A channel B, chip B channel A, chip B
      channel B, in that order. */
  lemma RoutesAreDistinct(e1: int, e2: int)
    requires 1 <= e1 <= 4 && 1 <= e2 <= 4
    ensures UsesChipA(e1) <==> e1 <= 2
    ensures UsesChannelB(e1) <==> e1 % 2 == 0
    ensures (UsesChipA(e1), UsesChannelB(e1)) == (UsesChipA(e2), UsesChannelB(e2)) ==> e1 == e2
  {
  }

  /** `digitalWrite` with an `int` value: the AVR core takes the value as a
      `uint8_t`, so only its low byte decides; a zero byte is LOW, any other
      HIGH. */
  function DigitalLevel(value: int): Level
  {
    if value % 256 == 0 then Low else High
  }

  /** The level depends only on the low byte: 1..255 are HIGH, while a value
      such as 256 or 4096, whose low byte is zero, drives the pin LOW. */
  lemma DigitalLevelNarrows(value: int, k: int)
    ensures DigitalLevel(value + 256 * k) == DigitalLevel(value)
    ensures 0 < value < 256 ==> DigitalLevel(value) == High
    ensures DigitalLevel(0) == Low && DigitalLevel(256) == Low && DigitalLevel(4096) == Low
  {
    assert (value + 256 * k) % 256 == value % 256;
  }

  /** The part of the object that `write_outputs` changes: the analog event
      counter, the shared DAC command array and the pin writes. */
  datatype Progress = Progress(dacEvent: int, code: seq<bool>, wire: seq<PinEvent>)

  /** The number of analog outputs among the first n. */
  function AnalogCount(modes: seq<bool>, n: nat): nat
    requires n <= |modes|
  {
    if n == 0 then 0 else AnalogCount(modes, n - 1) + (if modes[n - 1] then 1 else 0)
  }

  /** The frame of the word in `p.code`, sent to the chip the event number
      selects. */
  function SendStep(hw: Hardware, p: Progress): (r: Progress)
    requires |hw.pinsDacA| == 4 && |hw.pinsDacB| == 4
  {
    var pins := if UsesChipA(p.dacEvent) then hw.pinsDacA else hw.pinsDacB;
    p.(wire := p.wire + Frame(p.code, pins[0], pins[1], pins[2], pins[3] > 0, pins[3]))
  }

  /** An analog output: the counter goes up, and a changed value is encoded
      and sent. */
  function AnalogStep(hw: Hardware, value: int, previous: int, p: Progress): (r: Progress)
    requires |hw.pinsDacA| == 4 && |hw.pinsDacB| == 4 && |p.code| == 16
    ensures |r.code| == 16
  {
    var e := p.dacEvent + 1;
    if value != previous then
      SendStep(hw, Progress(e, ML.Encode(p.code, value, UsesChannelB(e)), p.wire))
    else
      p.(dacEvent := e)
  }

  /** One pass of the loop body for an output with the given mode, value,
      previous value and digital pin. */
  function WriteOne(hw: Hardware, analog: bool, value: int, previous: int, pin: int, p: Progress): (r: Progress)
    requires |hw.pinsDacA| == 4 && |hw.pinsDacB| == 4 && |p.code| == 16
    ensures |r.code| == 16
  {
    if analog then AnalogStep(hw, value, previous, p)
    else if value != previous then p.(wire := p.wire + [Write(pin, DigitalLevel(value))])
    else p
  }

  /** `write_outputs` over the first n outputs, from `start`. */
  function WriteOutputsSpec(hw: Hardware, modes: seq<bool>, values: seq<int>, previous: seq<int>,
                            start: Progress, n: nat): (r: Progress)
    requires HardwareFits(hw, |modes|) && |values| == |modes| && |previous| == |modes|
    requires n <= |modes| && |start.code| == 16
    ensures |r.code| == 16
  {
    if n == 0 then start
    else
      WriteOne(hw, modes[n - 1], values[n - 1], previous[n - 1], hw.pinsOutput[n - 1],
               WriteOutputsSpec(hw, modes, values, previous, start, n - 1))
  }

  /** The counter counts every analog output, whether or not it is written. */
  lemma {:induction false} DacEventCountsAnalogOutputs(hw: Hardware, modes: seq<bool>, values: seq<int>,
                                                       previous: seq<int>, start: Progress, n: nat)
    requires HardwareFits(hw, |modes|) && |values| == |modes| && |previous| == |modes|
    requires n <= |modes| && |start.code| == 16
    ensures WriteOutputsSpec(hw, modes, values, previous, start, n).dacEvent == start.dacEvent + AnalogCount(modes, n)
  {
    if n > 0 {
      DacEventCountsAnalogOutputs(hw, modes, values, previous, start, n - 1);
    }
  }

  /** Outputs whose value equals the previous one are not written: with no
      change anywhere, no pin is touched and the DAC array keeps its bits. */
  lemma {:induction false} UnchangedOutputsWriteNothing(hw: Hardware, modes: seq<bool>, values: seq<int>,
                                                        previous: seq<int>, start: Progress, n: nat)
    requires HardwareFits(hw, |modes|) && |values| == |modes| && |previous| == |modes|
    requires n <= |modes| && |start.code| == 16
    requires forall i :: 0 <= i < n ==> values[i] == previous[i]
    ensures WriteOutputsSpec(hw, modes, values, previous, start, n).wire == start.wire
    ensures WriteOutputsSpec(hw, modes, values, previous, start, n).code == start.code
  {
    if n > 0 {
      UnchangedOutputsWriteNothing(hw, modes, values, previous, start, n - 1);
    }
  }

  /** The pin writes only grow: each output appends its own writes, if any. */
  lemma {:induction false} WireOnlyGrows(hw: Hardware, modes: seq<bool>, values: seq<int>,
                                         previous: seq<int>, start: Progress, n: nat)
    requires HardwareFits(hw, |modes|) && |values| == |modes| && |previous| == |modes|
    requires n <= |modes| && |start.code| == 16
    ensures var r := WriteOutputsSpec(hw, modes, values, previous, start, n);
      |start.wire| <= |r.wire| && r.wire[..|start.wire|] == start.wire
  {
    if n > 0 {
      WireOnlyGrows(hw, modes, values, previous, start, n - 1);
      var p := WriteOutputsSpec(hw, modes, values, previous, start, n - 1);
      var r := WriteOutputsSpec(hw, modes, values, previous, start, n);
      assert r.wire[..|p.wire|] == p.wire;
      assert r.wire[..|start.wire|] == r.wire[..|p.wire|][..|start.wire|];
    }
  }

  /** A single changed analog output, all others unchanged, sends exactly one
      frame: the word for its value on channel A of chip A. */
  lemma OneAnalogOutput(hw: Hardware, value: int, previous: int, code: seq<bool>, wire: seq<PinEvent>)
    requires HardwareFits(hw, 1) && |code| == 16 && value != previous
    ensures var c := ML.Encode(code, value, false);
      WriteOutputsSpec(hw, [true], [value], [previous], Progress(0, code, wire), 1) ==
      Progress(1, c, wire + Frame(c, hw.pinsDacA[0], hw.pinsDacA[1], hw.pinsDacA[2],
                                  hw.pinsDacA[3] > 0, hw.pinsDacA[3]))
  {
  }

  lemma {:induction false} AnalogCountBounded(modes: seq<bool>, i: nat, n: nat)
    requires i <= n <= |modes|
    ensures AnalogCount(modes, i) <= AnalogCount(modes, n)
    decreases n - i
  {
    if i < n {
      AnalogCountBounded(modes, i + 1, n);
    }
  }

  //
  // Clock edges
  //

  datatype Edge = Rise | Fall

  /** The two checks of `run_clock_events` for an enabled clock, one after the
      other: the new `last_state_is_low` and the hooks called, in order. */
  function ClockStep(high: bool, lastLow: bool): (bool, seq<Edge>)
  {
    var (low1, rose) := if high && lastLow then (false, [Rise]) else (lastLow, []);
    var (low2, fell) := if !high && !low1 then (true, [Fall]) else (low1, []);
    (low2, rose + fell)
  }

  /** At most one hook runs per call: the rise hook exactly when the clock is high
      and was low, the fall hook exactly when it is low and was high; afterwards
      the remembered state is the sampled one. */
  lemma ClockStepFiresAtMostOnce(high: bool, lastLow: bool)
    ensures |ClockStep(high, lastLow).1| <= 1
    ensures ClockStep(high, lastLow).1 == [Rise] <==> high && lastLow
    ensures ClockStep(high, lastLow).1 == [Fall] <==> !high && !lastLow
    ensures ClockStep(high, lastLow).0 == !high
  {
    if high && lastLow {
      assert ClockStep(high, lastLow).1 == [Rise];
    } else if !high && !lastLow {
      assert ClockStep(high, lastLow).1 == [Fall];
    } else {
      assert ClockStep(high, lastLow).1 == [];
    }
  }

  /** The state after a run of clock samples and the hooks called on the way. */
  function ClockRun(samples: seq<bool>, lastLow: bool): (bool, seq<Edge>)
  {
    if samples == [] then (lastLow, [])
    else
      var (low, edges) := ClockStep(samples[0], lastLow);
      var (lowAfter, rest) := ClockRun(samples[1..], low);
      (lowAfter, edges + rest)
  }

  /** The hooks alternate, starting with the rise hook when the remembered
      state is low. */
  ghost predicate Alternates(edges: seq<Edge>, startWithRise: bool)
  {
    forall k :: 0 <= k < |edges| ==> (edges[k] == Rise <==> (k % 2 == 0) == startWithRise)
  }

  /** Over any run of samples the hooks alternate rise, fall, rise, ... from
      the initial state (`last_state_is_low = true` starts with a rise), and the
      remembered state says which one comes next. */
  lemma {:induction false} ClockRunAlternates(samples: seq<bool>, lastLow: bool)
    ensures Alternates(ClockRun(samples, lastLow).1, lastLow)
    ensures ClockRun(samples, lastLow).0 == (lastLow == (|ClockRun(samples, lastLow).1| % 2 == 0))
    decreases |samples|
  {
    if samples != [] {
      var (low, edges) := ClockStep(samples[0], lastLow);
      ClockStepFiresAtMostOnce(samples[0], lastLow);
      ClockRunAlternates(samples[1..], low);
      var rest := ClockRun(samples[1..], low).1;
      var all := edges + rest;
      assert ClockRun(samples, lastLow).1 == all;
      forall k | 0 <= k < |all|
        ensures all[k] == Rise <==> (k % 2 == 0) == lastLow
      {
        if |edges| == 1 && k >= 1 {
          assert all[k] == rest[k - 1];
        }
      }
    }
  }

  //
  // Timer
  //

  /** `get_timer()`: `millis() - last_timer` evaluated in 32-bit arithmetic
      (the unsigned reading minus the signed `long`), returned as a `long`. */
  function ElapsedMillis(lastTimer: int, now: int): (r: int)
    requires IsULong(now)
    ensures IsLong(r)
  {
    ToLong(ToULong(now - lastTimer))
  }

  /** Unlike the newer `Timer`, this timer survives the wrap of the millisecond
      clock: after a reset at `start`, a reading taken d ms later (modulo 2^32)
      gives d, for every d below 2^31. */
  lemma ElapsedSurvivesWrap(start: int, d: int)
    requires IsULong(start) && 0 <= d < LONG_HALF
    ensures ElapsedMillis(ToLong(start), (start + d) % ULONG_MODULUS) == d
  {
    var now := (start + d) % ULONG_MODULUS;
    var k := (start + d) / ULONG_MODULUS;
    assert start + d == k * ULONG_MODULUS + now;
    if start < LONG_HALF {
      assert now - ToLong(start) == d - k * ULONG_MODULUS;
    } else {
      assert now - ToLong(start) == d + (1 - k) * ULONG_MODULUS;
    }
    DivModUnique(now - ToLong(start), ULONG_MODULUS, (now - ToLong(start) - d) / ULONG_MODULUS, d);
  }

  //
  // The class
  //

  class EuroStep {
    const hw: Hardware
    const inputValues: array<int>
    const outputModeIsAnalog: array<bool>
    const outputValues: array<int>
    const outputValuesOld: array<int>
    const dacCode: array<bool>
    var dacEvent: int
    var clockInput: int
    var currentStateIsHigh: bool
    var lastStateIsLow: bool
    var lastTimer: int
    /** Every pin write made so far, oldest first. */
    var wire: seq<PinEvent>
    /** Every clock hook called so far, oldest first. */
    var clockEdges: seq<Edge>

    ghost predicate Valid()
      reads this
    {
      && HardwareFits(hw, outputValues.Length)
      && outputModeIsAnalog.Length == outputValues.Length
      && outputValuesOld.Length == outputValues.Length
      && dacCode.Length == 16
      && outputValuesOld != outputValues && outputModeIsAnalog != dacCode
      && inputValues != outputValues && inputValues != outputValuesOld
    }

    /** The hardware table, the number of inputs and the output modes are
        given; the clock starts disabled and low, the output history at 0. */
    constructor (hardware: Hardware, inputs: nat, modes: seq<bool>)
      requires HardwareFits(hardware, |modes|)
      ensures Valid()
      ensures hw == hardware && inputValues.Length == inputs && outputModeIsAnalog[..] == modes
      ensures clockInput == -1 && lastStateIsLow
      ensures outputValuesOld[..] == seq(|modes|, _ => 0)
      ensures wire == [] && clockEdges == []
    {
      hw := hardware;
      inputValues := new int[inputs](_ => 0);
      outputModeIsAnalog := new bool[|modes|](i requires 0 <= i < |modes| => modes[i]);
      outputValues := new int[|modes|](_ => 0);
      outputValuesOld := new int[|modes|](_ => 0);
      dacCode := new bool[16](_ => false);
      dacEvent := 0;
      clockInput := -1;
      currentStateIsHigh := false;
      lastStateIsLow := true;
      lastTimer := 0;
      wire := [];
      clockEdges := [];
    }

    /** `send_to_output(index, value)`. */
    method SendToOutput(index: int, value: int)
      requires Valid() && 0 <= index < outputValues.Length
      modifies outputValues
      ensures outputValues[..] == old(outputValues[..])[index := value]
    {
      outputValues[index] := value;
    }

    /** `enable_clock_events(index)`; -1 disables clock events. */
    method EnableClockEvents(index: int)
      requires Valid()
      modifies this
      ensures Valid()
      ensures clockInput == index && lastStateIsLow == old(lastStateIsLow)
      ensures clockEdges == old(clockEdges) && wire == old(wire)
    {
      clockInput := index;
    }

    /** `run_clock_events()`. The clock input must be a valid input index
        when enabled. */
    method RunClockEvents()
      requires Valid() && clockInput < inputValues.Length
      modifies this
      ensures Valid() && clockInput == old(clockInput) && wire == old(wire)
      ensures old(clockInput) <= -1 ==>
                lastStateIsLow == old(lastStateIsLow) && clockEdges == old(clockEdges)
      ensures old(clockInput) > -1 ==>
                var (low, edges) := ClockStep(inputValues[clockInput] != 0, old(lastStateIsLow));
                lastStateIsLow == low && clockEdges == old(clockEdges) + edges
    {
      if clockInput > -1 {
        currentStateIsHigh := inputValues[clockInput] != 0;
        if currentStateIsHigh && lastStateIsLow {
          clockEdges := clockEdges + [Rise];
          lastStateIsLow := false;
        }
        if !currentStateIsHigh && !lastStateIsLow {
          clockEdges := clockEdges + [Fall];
          lastStateIsLow := true;
        }
      }
    }

    /** `write_outputs()`. The firmware asserts that at most four outputs are
        analog; every output value is a 16-bit `int`. */
    method WriteOutputs()
      requires Valid()
      requires AnalogCount(outputModeIsAnalog[..], outputValues.Length) <= 4
      requires forall i :: 0 <= i < outputValues.Length ==> IsInt(outputValues[i])
      modifies this, dacCode, outputValuesOld
      ensures Valid()
      ensures Progress(dacEvent, dacCode[..], wire) ==
              WriteOutputsSpec(hw, outputModeIsAnalog[..], outputValues[..], old(outputValuesOld[..]),
                               Progress(0, old(dacCode[..]), old(wire)), outputValues.Length)
      ensures outputValuesOld[..] == outputValues[..]
      ensures clockInput == old(clockInput) && lastStateIsLow == old(lastStateIsLow)
      ensures clockEdges == old(clockEdges) && lastTimer == old(lastTimer)
    {
      ghost var modes := outputModeIsAnalog[..];
      ghost var values := outputValues[..];
      ghost var previous := outputValuesOld[..];
      ghost var start := Progress(0, dacCode[..], wire);
      var n := outputValues.Length;
      dacEvent := 0;
      var i := 0;
      while i < n
        invariant 0 <= i <= n
        invariant Valid()
        invariant Progress(dacEvent, dacCode[..], wire) == WriteOutputsSpec(hw, modes, values, previous, start, i)
        invariant dacEvent == AnalogCount(modes, i)
        invariant outputValuesOld[..i] == values[..i]
        invariant outputValuesOld[i..] == previous[i..]
        invariant clockInput == old(clockInput) && lastStateIsLow == old(lastStateIsLow)
        invariant clockEdges == old(clockEdges) && lastTimer == old(lastTimer)
      {
        assert outputValuesOld[i] == previous[i];
        AnalogCountBounded(modes, i + 1, n);
        WriteOutput(i);
        outputValuesOld[i] := outputValues[i];
        assert outputValuesOld[..i + 1] == values[..i + 1];
        i := i + 1;
      }
      assert outputValuesOld[..] == outputValuesOld[..n];
    }

    /** The loop body of `write_outputs()` for output `i`, before its value is
        remembered. */
    method WriteOutput(i: int)
      requires Valid() && 0 <= i < outputValues.Length && IsInt(outputValues[i])
      requires dacEvent + (if outputModeIsAnalog[i] then 1 else 0) <= 4
      modifies this, dacCode
      ensures Valid()
      ensures Progress(dacEvent, dacCode[..], wire) ==
              WriteOne(hw, outputModeIsAnalog[i], outputValues[i], outputValuesOld[i], hw.pinsOutput[i],
                       old(Progress(dacEvent, dacCode[..], wire)))
      ensures clockInput == old(clockInput) && lastStateIsLow == old(lastStateIsLow)
      ensures clockEdges == old(clockEdges) && lastTimer == old(lastTimer)
    {
      ghost var p := Progress(dacEvent, dacCode[..], wire);
      var value := outputValues[i];
      var previous := outputValuesOld[i];
      if outputModeIsAnalog[i] {
        WriteAnalogOutput(value, previous);
        ghost var q := Progress(dacEvent, dacCode[..], wire);
        assert q == AnalogStep(hw, value, previous, p);
      } else if value != previous {
        wire := wire + [Write(hw.pinsOutput[i], DigitalLevel(value))];
      }
    }

    /** The analog branch of the loop body of `write_outputs()`: count the
        event, and when the value changed, encode it for the channel and send
        the frame to the chip that the event number selects. */
    method WriteAnalogOutput(value: int, previous: int)
      requires Valid() && dacEvent < 4 && IsInt(value)
      modifies this, dacCode
      ensures Valid()
      ensures Progress(dacEvent, dacCode[..], wire) ==
              AnalogStep(hw, value, previous, old(Progress(dacEvent, dacCode[..], wire)))
      ensures clockInput == old(clockInput) && lastStateIsLow == old(lastStateIsLow)
      ensures clockEdges == old(clockEdges) && lastTimer == old(lastTimer)
    {
      ghost var p := Progress(dacEvent, dacCode[..], wire);
      dacEvent := dacEvent + 1;
      if value != previous {
        EncodeForEvent(value);
        ghost var q := Progress(dacEvent, dacCode[..], wire);
        SendForEvent();
        assert Progress(dacEvent, dacCode[..], wire) == SendStep(hw, q);
      }
    }

    /** Bit 0 selects channel A for the 1st and 3rd analog output, channel B
        for the others; the word is built by the older driver. */
    method EncodeForEvent(value: int)
      requires Valid() && IsInt(value)
      modifies dacCode
      ensures dacCode[..] == ML.Encode(old(dacCode[..]), value, UsesChannelB(dacEvent))
    {
      if dacEvent == 1 || dacEvent == 3 {
        ML.UpdateDacCode(dacCode, value, false);
      } else {
        ML.UpdateDacCode(dacCode, value, true);
      }
    }

    /** The frame goes to chip A for the 1st and 2nd analog output, to chip B
        for the others. */
    method SendForEvent()
      requires Valid()
      modifies this
      ensures Valid()
      ensures Progress(dacEvent, dacCode[..], wire) == SendStep(hw, old(Progress(dacEvent, dacCode[..], wire)))
      ensures clockInput == old(clockInput) && lastStateIsLow == old(lastStateIsLow)
      ensures clockEdges == old(clockEdges) && lastTimer == old(lastTimer)
    {
      var events;
      if dacEvent == 1 || dacEvent == 2 {
        events := ML.WriteDacCode(dacCode, hw.pinsDacA[0], hw.pinsDacA[1], hw.pinsDacA[2], hw.pinsDacA[3]);
      } else {
        events := ML.WriteDacCode(dacCode, hw.pinsDacB[0], hw.pinsDacB[1], hw.pinsDacB[2], hw.pinsDacB[3]);
      }
      wire := wire + events;
    }

    /** `reset_timer()` with the reading `now` of `millis()`, stored in a `long`. */
    method ResetTimer(now: int)
      requires IsULong(now)
      modifies this
      ensures lastTimer == ToLong(now)
      ensures clockInput == old(clockInput) && lastStateIsLow == old(lastStateIsLow)
      ensures wire == old(wire) && clockEdges == old(clockEdges) && dacEvent == old(dacEvent)
    {
      lastTimer := ToLong(now);
    }

    /** `get_timer()` with the reading `now` of `millis()`. */
    method GetTimer(now: int) returns (elapsed: int)
      requires IsULong(now)
      ensures elapsed == ElapsedMillis(lastTimer, now)
    {
      elapsed := ToLong(ToULong(now - lastTimer));
    }
  }
}
