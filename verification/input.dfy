/** The `Input` class of backend/Input.h. The source derives it from `Timer`;
    here it owns a `Timer` object. The hardware reads are parameters of the
    reading methods: `digitalHigh` is what `digitalRead` returns and `analogMv`
    is the voltage `read_analog_mV` reports (already converted to an integer
    number of millivolts). */
module Inputs {
  import opened CInt
  import opened Clock
  import opened Transfer
  import opened Maps
  import opened DivMod
  import Smoothing

  /** The configuration of an input. */
  datatype Settings = Settings(
    pin: int, readFrequency: int, readFrequencyOffset: int,
    r1: int, r2: int,
    smooth: bool, reverse: bool, digital: bool,
    maxMv: int, threshold: int, debug: bool)

  /** What the input has read so far, with the state of its timer. */
  datatype Readings = Readings(lastMv: int, currentMv: int, percent: int, history: seq<int>,
                               lastTimer: int, inMicros: bool)

  //
  // The value computations
  //

  /** A digital reading converted to millivolts: `max_input_mV * digitalRead(pin)`. */
  function DigitalMv(maxMv: int, high: bool): int
  {
    maxMv * (if high then 1 else 0)
  }

  /** The clamp to [0, max_input_mV] followed by the optional reversal. */
  function Condition(raw: int, maxMv: int, reverse: bool): int
  {
    var v := TransferValueToRange(raw, 0, maxMv);
    if reverse then maxMv - v else v
  }

  /** The raw value of one read: the digital conversion, the moving average of
      the shifted history, or the plain analog reading. */
  function RawMv(s: Settings, history: seq<int>, digitalHigh: bool, analogMv: int): int
    requires |history| == Smoothing.HISTORY_LENGTH
  {
    if s.digital then DigitalMv(s.maxMv, digitalHigh)
    else if s.smooth then Smoothing.Average(Smoothing.Shifted(history, analogMv))
    else analogMv
  }

  /** `round_to_nearest(input, value)`: `input / value * value` with C's
      truncating division. */
  function RoundToNearest(x: int, v: int): int
    requires v != 0
  {
    CDiv(x, v) * v
  }

  /** `read_input_immediately()` on the readings: the current value becomes
      the last one, the new raw value is conditioned, and a smoothed analog
      input shifts the sample into its history. */
  function ReadNow(r: Readings, c: Settings, digitalHigh: bool, analogMv: int): Readings
    requires |r.history| == Smoothing.HISTORY_LENGTH
  {
    r.(lastMv := r.currentMv,
       currentMv := Condition(RawMv(c, r.history, digitalHigh, analogMv), c.maxMv, c.reverse),
       history := if !c.digital && c.smooth then Smoothing.Shifted(r.history, analogMv) else r.history)
  }

  /** `read_input_if_ready()` on the readings: `get_timer` runs its
      wrap-around catch, and the read happens only when the elapsed time is
      past the read period (an `int` compared as an `unsigned long`). */
  function ReadIfReady(r: Readings, c: Settings, now: int, digitalHigh: bool, analogMv: int): Readings
    requires |r.history| == Smoothing.HISTORY_LENGTH && IsULong(r.lastTimer) && IsULong(now)
  {
    var timed := r.(lastTimer := LastAfterGet(r.lastTimer, now));
    if Elapsed(r.lastTimer, now) > ToULong(c.readFrequency) then ReadNow(timed, c, digitalHigh, analogMv)
    else timed
  }

  /** `check_if_input_went_low_to_high()` on a last and a current value. */
  function WentLowToHigh(last: int, current: int, threshold: int): bool
  {
    last < threshold && current >= threshold
  }

  /** `check_if_input_went_high_to_low()` on a last and a current value. */
  function WentHighToLow(last: int, current: int, threshold: int): bool
  {
    last >= threshold && current < threshold
  }

  //
  // Properties of the computations
  //

  /** A read ends in [0, max_input_mV]: the clamp puts the value there and the
      reversal `max - v` maps that range onto itself. */
  lemma ConditionInRange(raw: int, maxMv: int, reverse: bool)
    requires maxMv >= 0
    ensures 0 <= Condition(raw, maxMv, reverse) <= maxMv
    ensures !reverse && 0 <= raw <= maxMv ==> Condition(raw, maxMv, reverse) == raw
    ensures reverse && 0 <= raw <= maxMv ==> Condition(raw, maxMv, reverse) == maxMv - raw
  {
    ClampInRange(raw, 0, maxMv);
  }

  /** Reversing twice gives the value back: the reversal is its own inverse on
      the range the clamp produces. */
  lemma ReverseTwiceIsIdentity(raw: int, maxMv: int)
    requires 0 <= raw <= maxMv
    ensures Condition(Condition(raw, maxMv, true), maxMv, true) == raw
  {
    ConditionInRange(raw, maxMv, true);
  }

  /** A digital input reads exactly 0 or `max_input_mV`, reversed or not, and
      it reads `max_input_mV` exactly when the pin is high and not reversed or
      low and reversed. */
  lemma DigitalReadsZeroOrMax(maxMv: int, high: bool, reverse: bool)
    requires maxMv >= 0
    ensures Condition(DigitalMv(maxMv, high), maxMv, reverse) == (if high != reverse then maxMv else 0)
  {
  }

  /** The rounded value is the input's magnitude rounded down to a multiple
      of the step's magnitude, with the input's sign. */
  lemma RoundToNearestMagnitude(x: int, v: int)
    requires v != 0
    ensures Abs(v) > 0
    ensures RoundToNearest(x, v) == (if x < 0 then -1 else 1) * ((Abs(x) / Abs(v)) * Abs(v))
  {
    var a: int, b: int := Abs(x), Abs(v);
    assert b > 0;
    var q: int := a / b;
    CDivMagnitudeAndSign(x, v);
    var c := CDiv(x, v);
    if q == 0 {
      assert c == 0;
    } else if (x < 0) == (v < 0) {
      assert c == q;
      assert c * v == (if x < 0 then -1 else 1) * (q * b) by {
        if v < 0 {
          assert b == -v;
        }
      }
    } else {
      assert c == -q;
      assert c * v == (if x < 0 then -1 else 1) * (q * b) by {
        if v < 0 {
          assert b == -v;
        }
      }
    }
  }

  /** Rounding with a non-zero step gives a multiple of the step. */
  lemma RoundToNearestIsMultiple(x: int, v: int)
    requires v != 0
    ensures RoundToNearest(x, v) % Abs(v) == 0
  {
    RoundToNearestMagnitude(x, v);
    var q: int := Abs(x) / Abs(v);
    if x < 0 {
      DivModUnique(RoundToNearest(x, v), Abs(v), -q, 0);
    } else {
      DivModUnique(RoundToNearest(x, v), Abs(v), q, 0);
    }
  }

  /** The rounded value lies on the input's side of zero, no farther from
      zero than the input and less than one step away from it; with the
      default step 1 it is the input itself. */
  lemma RoundToNearestBounds(x: int, v: int)
    requires v != 0
    ensures Abs(RoundToNearest(x, v)) <= Abs(x)
    ensures Abs(x - RoundToNearest(x, v)) < Abs(v)
    ensures x >= 0 ==> RoundToNearest(x, v) >= 0
    ensures x <= 0 ==> RoundToNearest(x, v) <= 0
    ensures v == 1 ==> RoundToNearest(x, v) == x
  {
    RoundToNearestMagnitude(x, v);
    var a: int, b: int := Abs(x), Abs(v);
    FloorMultiple(a, b);
    var m: int := (a / b) * b;
    assert RoundToNearest(x, v) == (if x < 0 then -m else m);
  }

  /** `a / b * b` rounds a non-negative `a` down to a multiple of `b`. */
  lemma FloorMultiple(a: int, b: int)
    requires a >= 0 && b > 0
    ensures 0 <= (a / b) * b <= a < (a / b) * b + b
    ensures b == 1 ==> (a / b) * b == a
  {
    var q := a / b;
    assert a == q * b + a % b;
    assert q >= 0;
  }

  /** The two edge checks never hold at once, a rise means the input now reads
      as true and a fall means it reads as false. */
  lemma EdgesExclusive(last: int, current: int, threshold: int)
    ensures !(WentLowToHigh(last, current, threshold) && WentHighToLow(last, current, threshold))
    ensures WentLowToHigh(last, current, threshold) ==> current >= threshold
    ensures WentHighToLow(last, current, threshold) ==> current < threshold
    ensures WentLowToHigh(last, current, threshold) || WentHighToLow(last, current, threshold)
            <==> (last >= threshold) != (current >= threshold)
  {
  }

  /** A read moves the current value into the last one and leaves the new
      current value in [0, max_input_mV]; when the input is not due, only
      the timer's wrap-around catch happens. Neither touches the percentage
      or the timer's unit. */
  lemma ReadIfReadyEffect(r: Readings, c: Settings, now: int, digitalHigh: bool, analogMv: int)
    requires |r.history| == Smoothing.HISTORY_LENGTH && IsULong(r.lastTimer) && IsULong(now)
    requires c.maxMv >= 0
    ensures var n := ReadIfReady(r, c, now, digitalHigh, analogMv);
      && |n.history| == Smoothing.HISTORY_LENGTH
      && n.percent == r.percent && n.inMicros == r.inMicros
      && n.lastTimer == LastAfterGet(r.lastTimer, now)
      && (Elapsed(r.lastTimer, now) > ToULong(c.readFrequency) ==>
            n.lastMv == r.currentMv && 0 <= n.currentMv <= c.maxMv)
      && (Elapsed(r.lastTimer, now) <= ToULong(c.readFrequency) ==>
            n == r.(lastTimer := LastAfterGet(r.lastTimer, now)))
  {
    if Elapsed(r.lastTimer, now) > ToULong(c.readFrequency) {
      ConditionInRange(RawMv(c, r.history, digitalHigh, analogMv), c.maxMv, c.reverse);
    }
  }

  /** Input never resets its timer: once a reading `t1` is past the read
      period, so is every later reading `t2` before the clock wraps, and the
      reset point stays where it was. */
  lemma OnceReadyAlwaysReady(last: int, t1: int, t2: int, readFrequency: int)
    requires IsULong(last) && IsULong(t1) && IsULong(t2)
    requires t1 <= t2
    requires Elapsed(last, t1) > ToULong(readFrequency)
    ensures LastAfterGet(last, t1) == last
    ensures Elapsed(last, t2) > ToULong(readFrequency)
  {
    ElapsedCases(last, t1);
    ElapsedCases(last, t2);
  }

  //
  // The class
  //

  class Input {
    var debug: bool
    var inputPin: int
    var readFrequency: int
    var readFrequencyOffset: int
    var lastValueMv: int
    const history: array<int>
    var currentValueMv: int
    var currentValuePercent: int
    /** Never changed after construction. */
    const roundPercentTo: int
    var inputAsBoolThreshold: int
    var maxInputMv: int
    var r1Value: int
    var r2Value: int
    var smoothInput: bool
    var reverseInput: bool
    var inputIsDigital: bool
    const timer: Timer

    ghost predicate Valid()
      reads this, timer
    {
      history.Length == Smoothing.HISTORY_LENGTH && roundPercentTo == 1 && timer.Valid()
    }

    ghost function Config(): Settings
      reads this
    {
      Settings(inputPin, readFrequency, readFrequencyOffset, r1Value, r2Value,
               smoothInput, reverseInput, inputIsDigital, maxInputMv, inputAsBoolThreshold, debug)
    }

    ghost function State(): Readings
      reads this, history, timer
    {
      Readings(lastValueMv, currentValueMv, currentValuePercent, history[..], timer.lastTimer, timer.timeInMicros)
    }

    /** The defaults of the source: pin 0, read at every tick, threshold
        500 mV, maximum 5000 mV, analog, not smoothed, not reversed, history
        and readings 0. `r1_value` and `r2_value` have no initialiser there, so
        their first values are parameters here. */
    constructor (r1: int, r2: int)
      ensures Valid() && fresh(history) && fresh(timer)
      ensures Config() == Settings(0, 0, 0, r1, r2, false, false, false, 5000, 500, false)
      ensures State() == Readings(0, 0, 0, seq(Smoothing.HISTORY_LENGTH, _ => 0), 0, false)
    {
      debug := false;
      inputPin := 0;
      readFrequency := 0;
      readFrequencyOffset := 0;
      lastValueMv := 0;
      history := new int[Smoothing.HISTORY_LENGTH](_ => 0);
      currentValueMv := 0;
      currentValuePercent := 0;
      roundPercentTo := 1;
      inputAsBoolThreshold := 500;
      maxInputMv := 5000;
      r1Value := r1;
      r2Value := r2;
      smoothInput := false;
      reverseInput := false;
      inputIsDigital := false;
      timer := new Timer();
    }

    /** `read_input_immediately()`: remember the last value, read (digital,
        smoothed or plain analog), then clamp and optionally reverse. Only a
        smoothed analog input touches the history; the timer is not used. */
    method ReadInputImmediately(digitalHigh: bool, analogMv: int)
      requires Valid()
      modifies this, history
      ensures Valid() && Config() == old(Config())
      ensures State() == ReadNow(old(State()), old(Config()), digitalHigh, analogMv)
      ensures maxInputMv >= 0 ==> 0 <= currentValueMv <= maxInputMv
    {
      lastValueMv := currentValueMv;
      var raw := ReadRaw(digitalHigh, analogMv);
      currentValueMv := TransferValueToRange(raw, 0, maxInputMv);
      if reverseInput {
        currentValueMv := maxInputMv - currentValueMv;
      }
      if maxInputMv >= 0 {
        ConditionInRange(raw, maxInputMv, reverseInput);
      }
    }

    /** The reading part of `read_input_immediately()`: digital, smoothed or
        plain analog. Only a smoothed analog input touches the history. */
    method ReadRaw(digitalHigh: bool, analogMv: int) returns (raw: int)
      requires Valid()
      modifies history
      ensures raw == RawMv(Config(), old(history[..]), digitalHigh, analogMv)
      ensures history[..] == (if !inputIsDigital && smoothInput
                              then Smoothing.Shifted(old(history[..]), analogMv) else old(history[..]))
    {
      if inputIsDigital {
        raw := maxInputMv * (if digitalHigh then 1 else 0);
      } else {
        if smoothInput {
          raw := Smoothing.ReadAnalogMvSmooth(history, analogMv);
        } else {
          raw := analogMv;
        }
      }
    }

    /** `read_input_if_ready()`: read only when the timer is past the read
        period (the `int` period compared as an `unsigned long`). The timer is
        never reset here, except by `get_timer`'s wrap-around catch. */
    method ReadInputIfReady(now: int, digitalHigh: bool, analogMv: int)
      requires Valid() && IsULong(now)
      modifies this, history, timer
      ensures Valid() && Config() == old(Config())
      ensures State() == ReadIfReady(old(State()), old(Config()), now, digitalHigh, analogMv)
    {
      var elapsed := timer.GetTimer(now);
      if elapsed > ToULong(readFrequency) {
        ReadInputImmediately(digitalHigh, analogMv);
      }
    }

    /** `get_input_as_mV()`: read if ready, then report the current value. */
    method GetInputAsMv(now: int, digitalHigh: bool, analogMv: int) returns (mV: int)
      requires Valid() && IsULong(now)
      modifies this, history, timer
      ensures Valid() && Config() == old(Config())
      ensures State() == ReadIfReady(old(State()), old(Config()), now, digitalHigh, analogMv)
      ensures mV == currentValueMv
      ensures Elapsed(old(timer.lastTimer), now) > ToULong(readFrequency) ==>
                mV == Condition(RawMv(old(Config()), old(history[..]), digitalHigh, analogMv),
                                maxInputMv, reverseInput)
      ensures Elapsed(old(timer.lastTimer), now) <= ToULong(readFrequency) ==> mV == old(currentValueMv)
    {
      ReadInputIfReady(now, digitalHigh, analogMv);
      mV := currentValueMv;
    }

    /** `get_input_as_percent()`: read if ready, then the value in percent of
        `max_input_mV`, rounded down to a multiple of `round_percent_to`
        (always 1). The divisor `max_input_mV / 100` must not be zero. */
    method GetInputAsPercent(now: int, digitalHigh: bool, analogMv: int) returns (pct: int)
      requires Valid() && IsULong(now) && Abs(maxInputMv) >= 100
      modifies this, history, timer
      ensures Valid() && Config() == old(Config())
      ensures var n := ReadIfReady(old(State()), old(Config()), now, digitalHigh, analogMv);
        State() == n.(percent := MapMvToPercent(n.currentMv, maxInputMv))
      ensures pct == currentValuePercent
      ensures 0 <= currentValueMv <= maxInputMv && maxInputMv % 100 == 0 ==> 0 <= pct <= 100
    {
      ReadInputIfReady(now, digitalHigh, analogMv);
      currentValuePercent := MapMvToPercent(currentValueMv, maxInputMv);
      pct := RoundToNearest(currentValuePercent, roundPercentTo);
      RoundToNearestBounds(currentValuePercent, roundPercentTo);
      if 0 <= currentValueMv <= maxInputMv && maxInputMv % 100 == 0 {
        PercentInRange(currentValueMv, maxInputMv);
      }
    }

    /** `get_input_as_bool()`: read if ready, then at or above the threshold. */
    method GetInputAsBool(now: int, digitalHigh: bool, analogMv: int) returns (b: bool)
      requires Valid() && IsULong(now)
      modifies this, history, timer
      ensures Valid() && Config() == old(Config())
      ensures State() == ReadIfReady(old(State()), old(Config()), now, digitalHigh, analogMv)
      ensures b <==> currentValueMv >= inputAsBoolThreshold
      ensures WentLowToHigh(lastValueMv, currentValueMv, inputAsBoolThreshold) ==> b
    {
      ReadInputIfReady(now, digitalHigh, analogMv);
      b := currentValueMv >= inputAsBoolThreshold;
    }

    /** `check_if_input_went_low_to_high()`: no read happens here. */
    method CheckIfInputWentLowToHigh() returns (r: bool)
      ensures r == WentLowToHigh(lastValueMv, currentValueMv, inputAsBoolThreshold)
    {
      r := lastValueMv < inputAsBoolThreshold && currentValueMv >= inputAsBoolThreshold;
    }

    /** `check_if_input_went_high_to_low()`: no read happens here. */
    method CheckIfInputWentHighToLow() returns (r: bool)
      ensures r == WentHighToLow(lastValueMv, currentValueMv, inputAsBoolThreshold)
    {
      r := lastValueMv >= inputAsBoolThreshold && currentValueMv < inputAsBoolThreshold;
    }

    /** `setup_as_jack(pin, r1, r2)`: smoothed, read every 2 ms, offset by the
        pin number. The digital flag is left as it was. */
    method SetupAsJack(pin: int, r1: int, r2: int)
      requires Valid()
      modifies this
      ensures Valid() && State() == old(State())
      ensures Config() == old(Config()).(pin := pin, r1 := r1, r2 := r2, readFrequency := 2,
                                         readFrequencyOffset := pin, smooth := true)
    {
      inputPin := pin;
      r1Value := r1;
      r2Value := r2;
      SetReadFrequency(2);
      SetReadFrequencyOffset(inputPin);
      smoothInput := true;
    }

    /** `setup_as_pot(pin)`: no divider, not smoothed, read every 10 ms. */
    method SetupAsPot(pin: int)
      requires Valid()
      modifies this
      ensures Valid() && State() == old(State())
      ensures Config() == old(Config()).(pin := pin, r1 := 0, r2 := 0, readFrequency := 10,
                                         readFrequencyOffset := pin, smooth := false)
    {
      inputPin := pin;
      r1Value := 0;
      r2Value := 0;
      SetReadFrequency(10);
      SetReadFrequencyOffset(inputPin);
      smoothInput := false;
    }

    /** `setup_as_switch(pin)`: digital, not smoothed, read every 10 ms; the
        divider values are left as they were. */
    method SetupAsSwitch(pin: int)
      requires Valid()
      modifies this
      ensures Valid() && State() == old(State())
      ensures Config() == old(Config()).(pin := pin, readFrequency := 10, readFrequencyOffset := pin,
                                         smooth := false, digital := true)
    {
      inputPin := pin;
      SetReadFrequency(10);
      SetReadFrequencyOffset(inputPin);
      smoothInput := false;
      inputIsDigital := true;
    }

    /** `set_read_frequency(value)`. */
    method SetReadFrequency(value: int)
      requires Valid()
      modifies this
      ensures Valid() && State() == old(State())
      ensures Config() == old(Config()).(readFrequency := value)
    {
      readFrequency := value;
    }

    /** `set_read_frequency_offset(value)`: stored, never used by a read. */
    method SetReadFrequencyOffset(value: int)
      requires Valid()
      modifies this
      ensures Valid() && State() == old(State())
      ensures Config() == old(Config()).(readFrequencyOffset := value)
    {
      readFrequencyOffset := value;
    }

    /** `set_max_input_mV(value)`. */
    method SetMaxInputMv(value: int)
      requires Valid()
      modifies this
      ensures Valid() && State() == old(State())
      ensures Config() == old(Config()).(maxMv := value)
    {
      maxInputMv := value;
    }

    /** `set_reverse_input(value)`. */
    method SetReverseInput(value: bool)
      requires Valid()
      modifies this
      ensures Valid() && State() == old(State())
      ensures Config() == old(Config()).(reverse := value)
    {
      reverseInput := value;
    }

    /** `set_debug(value)`: only the debug flag changes. */
    method SetDebug(value: bool)
      requires Valid()
      modifies this
      ensures Valid() && State() == old(State())
      ensures Config() == old(Config()).(debug := value)
    {
      debug := value;
    }
  }
}
