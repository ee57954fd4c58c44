/** Integer clamping: `transfer_value_to_range` and its copy `clip_integer`. */
module Transfer {

  /** Clamps `value` into `[lo, hi]`, testing the lower bound first. */
  function TransferValueToRange(value: int, lo: int, hi: int): (r: int)
    ensures value < lo ==> r == lo
    ensures lo <= value && value > hi ==> r == hi
    ensures lo <= value <= hi ==> r == value
  {
    if value < lo then lo
    else if value > hi then hi
    else value
  }

  /** With a non-empty range the result lies in it, and clamping is idempotent. */
  lemma ClampInRange(value: int, lo: int, hi: int)
    requires lo <= hi
    ensures lo <= TransferValueToRange(value, lo, hi) <= hi
    ensures TransferValueToRange(TransferValueToRange(value, lo, hi), lo, hi)
            == TransferValueToRange(value, lo, hi)
  {
  }

  /** With an empty range (`lo > hi`) the lower bound still wins whenever the
      value is below it, and every value above `hi` but not below `lo` is cut to `hi`. */
  lemma ClampEmptyRange(value: int, lo: int, hi: int)
    requires lo > hi
    ensures TransferValueToRange(value, lo, hi) == (if value < lo then lo else hi)
  {
  }

  /** Clamping is monotonic in the value. */
  lemma ClampMonotonic(v1: int, v2: int, lo: int, hi: int)
    requires v1 <= v2
    requires lo <= hi
    ensures TransferValueToRange(v1, lo, hi) <= TransferValueToRange(v2, lo, hi)
  {
  }
}
