/** The stopwatch of backend/Timer.h. The hardware clock (`millis()` or
    `micros()`, chosen by `timeInMicros`) is read by the caller and passed in
    as `now`, a 32-bit unsigned value; one reading stands for both reads the
    source makes inside `get_timer`. */
module Clock {
  import opened CInt

  /** The stored reset point after `get_timer` has run its wrap-around catch:
      a reading below the stored point means the counter wrapped, and the
      timer resets itself to that reading. */
  function LastAfterGet(last: int, now: int): int
  {
    if now < last then now else last
  }

  /** The value `get_timer` returns: time since the (possibly corrected) reset point. */
  function Elapsed(last: int, now: int): (e: int)
    requires IsULong(last) && IsULong(now)
    ensures IsULong(e)
    ensures LastAfterGet(last, now) + e == now
  {
    now - LastAfterGet(last, now)
  }

  /** Elapsed time is exact while the clock has not wrapped, and a wrapped
      reading costs the elapsed time accumulated so far: it reads as 0. */
  lemma ElapsedCases(last: int, now: int)
    requires IsULong(last) && IsULong(now)
    ensures now >= last ==> Elapsed(last, now) == now - last && LastAfterGet(last, now) == last
    ensures now < last ==> Elapsed(last, now) == 0 && LastAfterGet(last, now) == now
  {
  }

  /** A second `get_timer` at the same reading right after a wrap-around catch
      still returns 0 and does not move the reset point again. */
  lemma WrapCatchIsStable(last: int, now: int)
    requires IsULong(last) && IsULong(now)
    requires now < last
    ensures LastAfterGet(LastAfterGet(last, now), now) == now
    ensures Elapsed(LastAfterGet(last, now), now) == 0
  {
  }

  class Timer {
    var timeInMicros: bool
    var lastTimer: int

    ghost predicate Valid()
      reads this
    {
      IsULong(lastTimer)
    }

    /** Defaults: millisecond unit, reset point 0. */
    constructor ()
      ensures Valid()
      ensures !timeInMicros && lastTimer == 0
    {
      timeInMicros := false;
      lastTimer := 0;
    }

    /** `use_micros()`: only the unit flag changes. */
    method UseMicros()
      modifies this
      ensures timeInMicros
      ensures lastTimer == old(lastTimer)
    {
      timeInMicros := true;
    }

    /** `use_millis()`: only the unit flag changes. */
    method UseMillis()
      modifies this
      ensures !timeInMicros
      ensures lastTimer == old(lastTimer)
    {
      timeInMicros := false;
    }

    /** `get_timer()`: resets on a wrapped reading, then returns the elapsed time. */
    method GetTimer(now: int) returns (elapsed: int)
      requires Valid() && IsULong(now)
      modifies this
      ensures Valid()
      ensures timeInMicros == old(timeInMicros)
      ensures lastTimer == LastAfterGet(old(lastTimer), now)
      ensures elapsed == Elapsed(old(lastTimer), now)
      ensures now >= old(lastTimer) ==> elapsed == now - old(lastTimer) && lastTimer == old(lastTimer)
      ensures now < old(lastTimer) ==> elapsed == 0 && lastTimer == now
    {
      if now < lastTimer {
        ResetTimer(now);
      }
      elapsed := now - lastTimer;
    }

    /** `reset_timer()`: the reset point becomes the current reading. */
    method ResetTimer(now: int)
      requires IsULong(now)
      modifies this
      ensures Valid()
      ensures lastTimer == now
      ensures timeInMicros == old(timeInMicros)
    {
      lastTimer := now;
    }
  }
}
