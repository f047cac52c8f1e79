/** How often each weekday occurs in a half-open range of days. */
module Weekdays {
  import opened Dates

  /** Days `d` in `[lo, hi)` with `DayOfWeek(d) == k + 1`. */
  function Occurrences(lo: Day, hi: Day, k: int): nat
    decreases hi - lo
  {
    if hi <= lo then 0
    else Occurrences(lo, hi - 1, k) + Hit(hi - 1, k)
  }

  /** 1 when day `d` is weekday `k + 1`, else 0. */
  function Hit(d: Day, k: int): nat {
    if DayOfWeek(d) == k + 1 then 1 else 0
  }

  lemma DayOfWeekShift(x: Day, j: int)
    requires 0 <= j < 7
    ensures DayOfWeek(x + j) == (x % 7 + j) % 7 + 1
  {
    assert x + j == 7 * (x / 7) + (x % 7 + j);
  }

  /** Seven consecutive days hold every weekday exactly once. */
  lemma OneInSeven(x: Day, k: int)
    requires 0 <= k < 7
    ensures Hit(x, k) + Hit(x + 1, k) + Hit(x + 2, k) + Hit(x + 3, k)
            + Hit(x + 4, k) + Hit(x + 5, k) + Hit(x + 6, k) == 1
  {
    HitShift(x, 0, k);
    HitShift(x, 1, k);
    HitShift(x, 2, k);
    HitShift(x, 3, k);
    HitShift(x, 4, k);
    HitShift(x, 5, k);
    HitShift(x, 6, k);
  }

  /** Day `x + j` is weekday `k + 1` exactly when `x`'s remainder shifted
      by `j` reaches `k`, directly or after wrapping past 7. */
  lemma HitShift(x: Day, j: int, k: int)
    requires 0 <= j < 7 && 0 <= k < 7
    ensures Hit(x + j, k) == if x % 7 + j == k || x % 7 + j == k + 7 then 1 else 0
  {
    DayOfWeekShift(x, j);
  }

  /** Cutting the last seven days off a range removes one of each weekday. */
  lemma WeekBlock(lo: Day, hi: Day, k: int)
    requires lo + 7 <= hi && 0 <= k < 7
    ensures Occurrences(lo, hi, k) == Occurrences(lo, hi - 7, k) + 1
  {
    OneInSeven(hi - 7, k);
    assert Occurrences(lo, hi, k) == Occurrences(lo, hi - 1, k) + Hit(hi - 1, k);
    assert Occurrences(lo, hi - 1, k) == Occurrences(lo, hi - 2, k) + Hit(hi - 2, k);
    assert Occurrences(lo, hi - 2, k) == Occurrences(lo, hi - 3, k) + Hit(hi - 3, k);
    assert Occurrences(lo, hi - 3, k) == Occurrences(lo, hi - 4, k) + Hit(hi - 4, k);
    assert Occurrences(lo, hi - 4, k) == Occurrences(lo, hi - 5, k) + Hit(hi - 5, k);
    assert Occurrences(lo, hi - 5, k) == Occurrences(lo, hi - 6, k) + Hit(hi - 6, k);
    assert Occurrences(lo, hi - 6, k) == Occurrences(lo, hi - 7, k) + Hit(hi - 7, k);
  }

  lemma {:induction false} OccurrencesMonotone(lo: Day, hi: Day, hi': Day, k: int)
    requires hi <= hi'
    ensures Occurrences(lo, hi, k) <= Occurrences(lo, hi', k)
    decreases hi' - hi
  {
    if hi < hi' {
      OccurrencesMonotone(lo, hi, hi' - 1, k);
    }
  }

  /** Over `n` days every weekday occurs `n / 7` or `n / 7 + 1` times. */
  lemma {:induction false} OccurrenceBounds(lo: Day, hi: Day, k: int)
    requires lo <= hi && 0 <= k < 7
    ensures (hi - lo) / 7 <= Occurrences(lo, hi, k) <= (hi - lo) / 7 + 1
    decreases hi - lo
  {
    if hi - lo < 7 {
      OccurrencesMonotone(lo, hi, lo + 7, k);
      WeekBlock(lo, lo + 7, k);
      assert Occurrences(lo, lo, k) == 0;
    } else {
      WeekBlock(lo, hi, k);
      OccurrenceBounds(lo, hi - 7, k);
      assert (hi - lo) / 7 == (hi - 7 - lo) / 7 + 1;
    }
  }
}
