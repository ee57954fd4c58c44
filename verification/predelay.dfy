/** The `Predelay` class of add-ons/Predelay.h: a one-shot wait that is
    started with a duration and reports when the duration has passed. The
    source derives it from `Timer`; here it owns a `Timer` object. */
module Predelays {
  import opened CInt
  import opened Clock

  datatype Wait = Wait(duration: int, finished: bool, started: bool, lastTimer: int)

  /** `restart_predelay(duration)`: waiting again, from now. Every field is
      overwritten, so the old state `s` is unused; it is kept so that every
      transition takes the state it moves from. */
  function Restart(s: Wait, duration: int, now: int): Wait
  {
    Wait(duration, false, true, now)
  }

  /** `advance_predelay()`: the timer is read only while waiting (C's `&&`
      skips `get_timer()` otherwise), and the wait ends once the elapsed time
      reaches the duration, compared as `unsigned long`. */
  function Advance(s: Wait, now: int): Wait
    requires IsULong(s.lastTimer) && IsULong(now)
  {
    if !s.started then s
    else if Elapsed(s.lastTimer, now) >= ToULong(s.duration) then
      s.(started := false, finished := true, lastTimer := LastAfterGet(s.lastTimer, now))
    else s.(lastTimer := LastAfterGet(s.lastTimer, now))
  }

  /** Never both waiting and finished. */
  predicate Coherent(s: Wait)
  {
    !(s.started && s.finished)
  }

  //
  // Properties
  //

  /** Both operations keep the predelay from being waiting and finished at once. */
  lemma StepsKeepCoherent(s: Wait, duration: int, now: int)
    requires IsULong(s.lastTimer) && IsULong(now) && Coherent(s)
    ensures Coherent(Advance(s, now))
    ensures Coherent(Restart(s, duration, now))
  {
  }

  /** A finished predelay stays finished until it is restarted, and one that
      was never started never finishes. */
  lemma FinishedIsStable(s: Wait, now: int)
    requires IsULong(s.lastTimer) && IsULong(now)
    ensures s.finished ==> Advance(s, now).finished
    ensures !s.started ==> Advance(s, now) == s
  {
  }

  /** An advance finishes a waiting predelay exactly when the elapsed time
      has reached the duration. */
  lemma AdvanceFinishesWhenDue(s: Wait, now: int)
    requires IsULong(s.lastTimer) && IsULong(now) && Coherent(s) && s.started
    ensures Advance(s, now).finished <==> Elapsed(s.lastTimer, now) >= ToULong(s.duration)
    ensures Advance(s, now).started <==> !Advance(s, now).finished
  {
  }

  /** A restart with duration 0 finishes at the next advance, and one with a
      duration d >= 0 finishes at an advance d or more time units later, if
      the clock has not wrapped in between. */
  lemma RestartThenWait(s: Wait, d: int, t0: int, t1: int)
    requires IsULong(t0) && IsULong(t1) && 0 <= d
    requires t1 >= t0 + d
    ensures Advance(Restart(s, d, t0), t1).finished
  {
    ElapsedCases(t0, t1);
  }

  /** A negative duration becomes a huge `unsigned long` in the comparison: a
      predelay restarted with -1 finishes only if it was restarted at clock
      reading 0 and advanced at the last reading before the clock wraps. */
  lemma NegativeDurationWaitsLong(s: Wait, t0: int, t1: int)
    requires IsULong(t0) && IsULong(t1)
    ensures Advance(Restart(s, -1, t0), t1).finished <==> t0 == 0 && t1 == ULONG_MODULUS - 1
  {
    ElapsedCases(t0, t1);
  }

  class Predelay {
    var duration: int
    var finished: bool
    var started: bool
    const timer: Timer

    ghost predicate Valid()
      reads this, timer
    {
      timer.Valid() && Coherent(State())
    }

    ghost function State(): Wait
      reads this, timer
    {
      Wait(duration, finished, started, timer.lastTimer)
    }

    /** Defaults: 1000 time units, neither started nor finished, in milliseconds. */
    constructor ()
      ensures Valid()
      ensures State() == Wait(1000, false, false, 0) && !timer.timeInMicros
      ensures fresh(timer)
    {
      duration := 1000;
      finished := false;
      started := false;
      timer := new Timer();
    }

    /** `restart_predelay(duration)`. */
    method RestartPredelay(newDuration: int, now: int)
      requires Valid() && IsULong(now)
      modifies this, timer
      ensures Valid() && timer.timeInMicros == old(timer.timeInMicros)
      ensures State() == Restart(old(State()), newDuration, now)
    {
      duration := newDuration;
      started := true;
      finished := false;
      timer.ResetTimer(now);
    }

    /** `advance_predelay()`. */
    method AdvancePredelay(now: int)
      requires Valid() && IsULong(now)
      modifies this, timer
      ensures Valid() && timer.timeInMicros == old(timer.timeInMicros)
      ensures State() == Advance(old(State()), now)
    {
      if started {
        var elapsed := timer.GetTimer(now);
        if elapsed >= ToULong(duration) {
          started := false;
          finished := true;
        }
      }
    }

    /** `predelay_is_finished()`. */
    method PredelayIsFinished() returns (b: bool)
      requires Valid()
      ensures b == State().finished
      ensures b ==> !State().started
    {
      b := finished;
    }
  }
}
