/** The integer conversions of backend/map_funcs.h. */
module Maps {
  import opened CInt
  import opened DivMod

  /** `map_mV_to_percent(mV, max_mV)`: `mV / (max_mV / 100)` with C's truncating
      divisions; the divisor is zero unless |max_mV| >= 100. */
  function MapMvToPercent(mV: int, maxMv: int): (pct: int)
    requires Abs(maxMv) >= 100
    ensures maxMv > 0 && mV >= 0 ==> pct == mV / (maxMv / 100)
  {
    CDiv(mV, CDiv(maxMv, 100))
  }

  /** For a maximum that is a multiple of 100 the documented range [0, 100] holds. */
  lemma PercentInRange(mV: int, maxMv: int)
    requires maxMv >= 100 && maxMv % 100 == 0
    requires 0 <= mV <= maxMv
    ensures 0 <= MapMvToPercent(mV, maxMv) <= 100
  {
    var d := maxMv / 100;
    assert maxMv == d * 100;
    DivMonotonic(mV, maxMv, d);
    DivModUnique(maxMv, d, 100, 0);
  }

  /** Other maxima break the documented range: 4950 mV is 101 "percent" of 4950 mV. */
  lemma PercentCanExceedHundred()
    ensures MapMvToPercent(4950, 4950) == 101
  {
  }

  /** The percentage never decreases as the voltage grows. */
  lemma PercentMonotonic(mV1: int, mV2: int, maxMv: int)
    requires maxMv >= 100
    requires mV1 <= mV2
    ensures MapMvToPercent(mV1, maxMv) <= MapMvToPercent(mV2, maxMv)
  {
    var d := maxMv / 100;
    CDivMagnitudeAndSign(mV1, d);
    CDivMagnitudeAndSign(mV2, d);
    if mV1 >= 0 {
      DivMonotonic(mV1, mV2, d);
    } else if mV2 < 0 {
      DivMonotonic(-mV2, -mV1, d);
    }
  }

  /** `map_Hz_to_micros(Hz)`: the period `1000000 / Hz` in microseconds, truncated. */
  function MapHzToMicros(hz: int): (period: int)
    requires hz != 0
    ensures hz > 0 ==> 0 <= period && period * hz <= 1000000 < (period + 1) * hz
  {
    CDiv(1000000, hz)
  }

  /** On the 16-bit AVR `int` that holds it, the period fits only from 31 Hz
      up: for 1..30 Hz, `1000000 / Hz` exceeds 32767. */
  lemma PeriodFitsIntFrom31Hz(hz: int)
    requires hz > 0
    ensures IsInt(MapHzToMicros(hz)) <==> hz >= 31
  {
    if hz >= 31 {
      PeriodAntitone(31, hz);
      assert MapHzToMicros(31) == 32258;
    } else {
      PeriodAntitone(hz, 30);
      assert MapHzToMicros(30) == 33333;
    }
  }

  /** A higher frequency never gives a longer period. */
  lemma PeriodAntitone(hz1: int, hz2: int)
    requires 0 < hz1 <= hz2
    ensures MapHzToMicros(hz2) <= MapHzToMicros(hz1)
  {
    DivAntitone(1000000, hz1, hz2);
  }
}
