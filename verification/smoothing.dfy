/** The moving average of `read_analog_mV_smooth` (backend/read_funcs.h, and the
    same function in rapid_trigger/eurotools-v2.h): an eight-entry history
    array is shifted one place towards index 0, the new sample goes into the
    last place, and the result is the sum of the eight entries divided by 8 in
    a `long`. The analog reading itself is the parameter `sample`. */
module Smoothing {
  import opened CInt

  const HISTORY_LENGTH := 8

  /** The sum of the entries of `s`, last entry added last. */
  function Sum(s: seq<int>): int
  {
    if s == [] then 0 else Sum(s[..|s| - 1]) + s[|s| - 1]
  }

  /** The history after one call: the oldest entry is dropped, the others move
      down one place, and the sample is appended. */
  function Shifted(history: seq<int>, sample: int): (h: seq<int>)
    requires |history| == HISTORY_LENGTH
    ensures |h| == HISTORY_LENGTH
  {
    history[1..] + [sample]
  }

  /** The smoothed value of a history: C's truncating `long / 8` of the sum. */
  function Average(history: seq<int>): int
  {
    CDiv(Sum(history), HISTORY_LENGTH)
  }

  /** `read_analog_mV_smooth(pin, read_history, r1, r2, debug)` with the analog
      reading given as `sample`: the shift loop, the insertion, and the summing
      loop in a `long` accumulator. */
  method ReadAnalogMvSmooth(history: array<int>, sample: int) returns (average: int)
    requires history.Length == HISTORY_LENGTH
    modifies history
    ensures history[..] == Shifted(old(history[..]), sample)
    ensures average == Average(history[..])
  {
    for i := 0 to HISTORY_LENGTH - 1
      invariant history[..i] == old(history[1..i + 1])
      invariant history[i..] == old(history[i..])
    {
      history[i] := history[i + 1];
    }
    history[HISTORY_LENGTH - 1] := sample;
    assert history[..] == Shifted(old(history[..]), sample);
    var incomingCv := 0;
    for i := 0 to HISTORY_LENGTH
      invariant incomingCv == Sum(history[..i])
    {
      assert history[..i + 1][..i] == history[..i];
      incomingCv := incomingCv + history[i];
    }
    assert history[..HISTORY_LENGTH] == history[..];
    average := CDiv(incomingCv, HISTORY_LENGTH);
  }

  //
  // Properties
  //

  /** Entries between `lo` and `hi` give a sum between |s| * lo and |s| * hi. */
  lemma {:induction false} SumBounds(s: seq<int>, lo: int, hi: int)
    requires forall i :: 0 <= i < |s| ==> lo <= s[i] <= hi
    ensures |s| * lo <= Sum(s) <= |s| * hi
  {
    if s != [] {
      var init := s[..|s| - 1];
      assert forall i :: 0 <= i < |init| ==> init[i] == s[i];
      SumBounds(init, lo, hi);
    }
  }

  /** The average of non-negative readings between `lo` and `hi` lies between
      `lo` and `hi`: smoothing never leaves the range of its inputs. */
  lemma AverageInRange(history: seq<int>, lo: int, hi: int)
    requires |history| == HISTORY_LENGTH && 0 <= lo
    requires forall i :: 0 <= i < |history| ==> lo <= history[i] <= hi
    ensures lo <= Average(history) <= hi
  {
    SumBounds(history, lo, hi);
    var s := Sum(history);
    assert 8 * lo <= s <= 8 * hi;
    assert CDiv(s, 8) == s / 8;
  }

  /** A history of 16-bit `int` readings sums within a `long` and averages back
      to a value that fits an `int`, so the accumulator and the returned `int`
      never overflow. */
  lemma AverageFitsInt(history: seq<int>)
    requires |history| == HISTORY_LENGTH
    requires forall i :: 0 <= i < |history| ==> IsInt(history[i])
    ensures IsLong(Sum(history))
    ensures IsInt(Average(history))
  {
    SumBounds(history, -32768, 32767);
    var s := Sum(history);
    if s < 0 {
      assert CDiv(s, 8) == -((-s) / 8);
    } else {
      assert CDiv(s, 8) == s / 8;
    }
  }

  /** A constant signal passes through unchanged once it fills the history:
      eight equal samples average to that sample. */
  lemma SteadySignal(history: seq<int>, v: int)
    requires |history| == HISTORY_LENGTH
    requires forall i :: 0 <= i < |history| ==> history[i] == v
    ensures Average(history) == v
  {
    SumBounds(history, v, v);
    assert Sum(history) == 8 * v;
  }

  /** After eight calls the history holds exactly the eight samples, oldest
      first: nothing older survives. */
  lemma {:induction false} EightSamplesFillHistory(history: seq<int>, samples: seq<int>)
    requires |history| == HISTORY_LENGTH && |samples| <= HISTORY_LENGTH
    ensures ShiftedAll(history, samples) == history[|samples|..] + samples
    decreases |samples|
  {
    if samples != [] {
      var init := samples[..|samples| - 1];
      EightSamplesFillHistory(history, init);
      assert history[|init|..] + init + [samples[|samples| - 1]] == history[|samples| - 1..] + samples;
      assert history[|samples| - 1..][1..] == history[|samples|..];
    }
  }

  /** The history after a run of calls with the given samples, first sample first. */
  function ShiftedAll(history: seq<int>, samples: seq<int>): (h: seq<int>)
    requires |history| == HISTORY_LENGTH
    ensures |h| == HISTORY_LENGTH
  {
    if samples == [] then history
    else Shifted(ShiftedAll(history, samples[..|samples| - 1]), samples[|samples| - 1])
  }
}
