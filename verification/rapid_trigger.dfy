/** `digitalWrite_at_fixed_interval(PIN_OUT, millisecond_interval)` of
    rapid_trigger/digitalWrite_at_fixed_interval.h: a pin that is high for
    `interval` milliseconds and low for the next `interval`, after which the
    cycle restarts from the time of the call and the call reports it. The
    global `initial_time` is a field of a class; the two `millis()` readings
    are parameters and the pin writes are appended to a log. */
module RapidTrigger {
  import opened Pins

  /** The outcome of one call: the level written, the return value, and the
      new start of the cycle. */
  datatype Tick = Tick(level: Level, finished: bool, initialTime: int)

  /** One call, with `now` the first and `later` the second clock reading. */
  function Step(initialTime: int, interval: int, now: int, later: int): Tick
  {
    var diff := now - initialTime;
    if diff <= interval then Tick(High, false, initialTime)
    else if diff <= 2 * interval then Tick(Low, false, initialTime)
    else Tick(Low, true, later)
  }

  //
  // Properties
  //

  /** The pin is high exactly for the first `interval` milliseconds of a
      cycle; the call reports the end of the cycle exactly when more than
      twice the interval has passed. */
  lemma StepPhases(initialTime: int, interval: int, now: int, later: int)
    ensures var t := Step(initialTime, interval, now, later);
      && (t.level == High <==> now - initialTime <= interval)
      && (t.finished <==> now - initialTime > 2 * interval && now - initialTime > interval)
      && (t.finished ==> t.level == Low)
  {
  }

  /** `initial_time` changes only on a call that returns true, and then to
      the second clock reading. */
  lemma InitialTimeMovesOnlyWhenFinished(initialTime: int, interval: int, now: int, later: int)
    ensures var t := Step(initialTime, interval, now, later);
      (t.initialTime != initialTime ==> t.finished) && (t.finished ==> t.initialTime == later)
  {
  }

  /** With a positive interval a call at the start of a cycle writes high and
      does not finish; a cycle lasts just over two intervals: a call d
      milliseconds into it finishes exactly when d > 2 * interval. */
  lemma CycleLength(initialTime: int, interval: int, d: int, later: int)
    requires interval > 0 && d >= 0
    ensures Step(initialTime, interval, initialTime, later) == Tick(High, false, initialTime)
    ensures Step(initialTime, interval, initialTime + d, later).finished <==> d > 2 * interval
  {
  }

  /** With a negative interval the pin is never high once the clock has
      reached the start of the cycle: every such call finishes. */
  lemma NegativeIntervalNeverHigh(initialTime: int, interval: int, now: int, later: int)
    requires interval < 0 && now >= initialTime
    ensures Step(initialTime, interval, now, later) == Tick(Low, true, later)
  {
  }

  /** The global `initial_time` and the pin writes made so far. */
  class Trigger {
    var initialTime: int
    var wire: seq<PinEvent>

    /** `int initial_time = 0`. */
    constructor ()
      ensures initialTime == 0 && wire == []
    {
      initialTime := 0;
      wire := [];
    }

    /** `digitalWrite_at_fixed_interval(PIN_OUT, millisecond_interval)`. */
    method DigitalWriteAtFixedInterval(pinOut: int, interval: int, now: int, later: int)
      returns (cycleFinished: bool)
      modifies this
      ensures var t := Step(old(initialTime), interval, now, later);
        && cycleFinished == t.finished && initialTime == t.initialTime
        && wire == old(wire) + [Write(pinOut, t.level)]
    {
      cycleFinished := false;
      var currentTime := now;
      var diff := currentTime - initialTime;
      if diff <= interval {
        wire := wire + [Write(pinOut, High)];
      } else {
        if diff <= 2 * interval {
          wire := wire + [Write(pinOut, Low)];
        } else {
          wire := wire + [Write(pinOut, Low)];
          initialTime := later;
          cycleFinished := true;
        }
      }
    }
  }
}
