/** The forecaster: weekday averages of past showings, the banners still
    running, and for each of them a per-day forecast proportional to its
    minimum quota and capped at its maximum.

    The Python object never resets its weekday averages between calls, so
    the averages a call starts from are an explicit input (all zero for a
    fresh forecaster). */
module Forecaster {
  import opened Results
  import opened Dates
  import opened Showings
  import opened Banners
  import opened StableSort
  import opened Weekdays

  /** One forecast point: a date and the showings forecast for it. */
  datatype Entry = Entry(date: Day, showings: int)

  datatype ForecasterState = ForecasterState(
    averageShInWeek: seq<real>,
    banners: seq<Banner>,
    forecastShowings: seq<seq<Entry>>,
    minDate: Day,
    maxDate: Day)

  const Zeros: seq<real> := [0.0, 0.0, 0.0, 0.0, 0.0, 0.0, 0.0]

  // ---------------------------------------------------------------------
  // Date range and weekday statistics

  /** `_min_max_dates`, over all banners before any filtering: the earliest
      start and latest end, starting from today plus and minus ten years. */
  function MinMaxDates(banners: seq<Banner>, today: Day): (r: (Day, Day))
    ensures r.0 <= AddYears(today, 10) && AddYears(today, -10) <= r.1
    ensures forall i :: 0 <= i < |banners| ==> r.0 <= banners[i].dateStart && banners[i].dateEnd <= r.1
    ensures r.0 == AddYears(today, 10) || exists i :: 0 <= i < |banners| && r.0 == banners[i].dateStart
    ensures r.1 == AddYears(today, -10) || exists i :: 0 <= i < |banners| && r.1 == banners[i].dateEnd
  {
    (EarliestStart(banners, AddYears(today, 10)), LatestEnd(banners, AddYears(today, -10)))
  }

  function Total(s: seq<nat>): nat {
    if |s| == 0 then 0 else s[0] + Total(s[1..])
  }

  lemma {:induction false} TotalIncrement(s: seq<nat>, k: nat)
    requires k < |s|
    ensures Total(s[k := s[k] + 1]) == Total(s) + 1
    decreases |s|
  {
    if k > 0 {
      assert s[k := s[k] + 1][1..] == s[1..][k - 1 := s[1..][k - 1] + 1];
      TotalIncrement(s[1..], k - 1);
    }
  }

  lemma {:induction false} TotalOfPositives(s: seq<nat>)
    requires forall k :: 0 <= k < |s| ==> s[k] > 0
    ensures Total(s) >= |s|
    decreases |s|
  {
    if |s| > 0 {
      TotalOfPositives(s[1..]);
    }
  }

  /** `_amount_days_of_week`: how often each weekday occurs among the days
      from `minDate` up to, not including, today. The counts add up to the
      length of that range and differ by at most one; all seven are
      positive exactly when the range spans at least a week. */
  method AmountDaysOfWeek(minDate: Day, today: Day) returns (amount: seq<nat>)
    ensures |amount| == 7
    ensures forall k :: 0 <= k < 7 ==> amount[k] == Occurrences(minDate, today, k)
    ensures Total(amount) == if minDate < today then today - minDate else 0
    ensures forall k, k' :: 0 <= k < 7 && 0 <= k' < 7 ==> amount[k] <= amount[k'] + 1
    ensures (forall k :: 0 <= k < 7 ==> amount[k] > 0) <==> today - minDate >= 7
  {
    amount := [0, 0, 0, 0, 0, 0, 0];
    var date := minDate;
    while DaysTo(date, today) > 0
      invariant minDate <= date && (date <= today || date == minDate)
      invariant |amount| == 7
      invariant forall k :: 0 <= k < 7 ==> amount[k] == Occurrences(minDate, date, k)
      invariant Total(amount) == date - minDate
      decreases today - date
    {
      var k := DayOfWeek(date) - 1;
      TotalIncrement(amount, k);
      amount := amount[k := amount[k] + 1];
      date := date + 1;
    }
    if minDate < today {
      forall k, k' | 0 <= k < 7 && 0 <= k' < 7
        ensures amount[k] <= amount[k'] + 1
      {
        OccurrenceBounds(minDate, today, k);
        OccurrenceBounds(minDate, today, k');
      }
      if today - minDate >= 7 {
        forall k | 0 <= k < 7
          ensures amount[k] > 0
        {
          OccurrenceBounds(minDate, today, k);
        }
      } else if forall k :: 0 <= k < 7 ==> amount[k] > 0 {
        TotalOfPositives(amount);
      }
    } else {
      assert amount[0] == 0;
    }
  }

  /** Showings dated strictly before today that fall on weekday `k + 1`. */
  function PastOnWeekday(showings: seq<Showing>, today: Day, k: int): nat {
    if |showings| == 0 then 0
    else
      var date := showings[|showings| - 1].datetime.date;
      PastOnWeekday(showings[..|showings| - 1], today, k)
      + (if DaysTo(date, today) > 0 && DayOfWeek(date) == k + 1 then 1 else 0)
  }

  /** The same, over all banners. */
  function PastOnWeekdayAll(banners: seq<Banner>, today: Day, k: int): nat {
    if |banners| == 0 then 0
    else
      PastOnWeekdayAll(banners[..|banners| - 1], today, k)
      + PastOnWeekday(banners[|banners| - 1].showings, today, k)
  }

  predicate NonNegative(avg: seq<real>) {
    forall k :: 0 <= k < |avg| ==> avg[k] >= 0.0
  }

  /** `avg[k] * counts[k] == sums[k]` in every slot. */
  predicate ScaledBy(avg: seq<real>, counts: seq<nat>, sums: seq<real>) {
    && |avg| == |counts| == |sums|
    && forall k :: 0 <= k < |avg| ==> avg[k] * (counts[k] as real) == sums[k]
  }

  /** How often each weekday occurs from `minDate` up to, not including,
      today. */
  function WeekdayCounts(minDate: Day, today: Day): (r: seq<nat>)
    ensures |r| == 7
  {
    seq(7, k requires 0 <= k < 7 => Occurrences(minDate, today, k))
  }

  /** Each slot's starting value plus the past showings on its weekday. */
  function Slots(prev: seq<real>, banners: seq<Banner>, today: Day): (r: seq<real>)
    requires |prev| == 7
    ensures |r| == 7
  {
    seq(7, k requires 0 <= k < 7 => prev[k] + PastOnWeekdayAll(banners, today, k) as real)
  }

  /** Each weekday average times the number of such weekdays since
      `minDate` is the slot's starting value plus the past showings on
      that weekday. */
  predicate AveragesOf(avg: seq<real>, prev: seq<real>, banners: seq<Banner>, minDate: Day, today: Day)
    requires |prev| == 7
  {
    ScaledBy(avg, WeekdayCounts(minDate, today), Slots(prev, banners, today))
  }

  /** `_analyse_results`: adds each past showing to its weekday's slot,
      then divides every slot by the number of such weekdays since
      `minDate`. It fails with a division by zero exactly when that range
      is shorter than a week. On success, average times occurrences gives
      back the slot's starting value plus the past showings on that
      weekday. */
  method AnalyseResults(prev: seq<real>, banners: seq<Banner>, minDate: Day, today: Day)
    returns (r: Result<seq<real>>)
    requires |prev| == 7
    ensures r.Err? <==> today - minDate < 7
    ensures r.Err? ==> r.error == DivisionByZero
    ensures r.Ok? ==> |r.value| == 7
    ensures r.Ok? ==> AveragesOf(r.value, prev, banners, minDate, today)
    ensures r.Ok? && NonNegative(prev) ==> NonNegative(r.value)
  {
    var sums := Slots(prev, banners, today);
    assert NonNegative(prev) ==> NonNegative(sums);
    var amount := AmountDaysOfWeek(minDate, today);
    assert amount == WeekdayCounts(minDate, today);
    r := DivideSlots(sums, amount);
  }

  /** Divides each weekday slot by its weekday count, failing at the first
      count of zero. */
  method DivideSlots(sums: seq<real>, amount: seq<nat>) returns (r: Result<seq<real>>)
    requires |sums| == |amount|
    ensures r.Err? <==> exists k :: 0 <= k < |amount| && amount[k] == 0
    ensures r.Err? ==> r.error == DivisionByZero
    ensures r.Ok? ==> |r.value| == |sums|
    ensures r.Ok? ==> ScaledBy(r.value, amount, sums)
    ensures r.Ok? && NonNegative(sums) ==> NonNegative(r.value)
  {
    var avg := sums;
    for k := 0 to |sums|
      invariant |avg| == |sums|
      invariant forall k' :: 0 <= k' < k ==> amount[k'] > 0 && avg[k'] * (amount[k'] as real) == sums[k']
      invariant forall k' :: 0 <= k' < k && sums[k'] >= 0.0 ==> avg[k'] >= 0.0
      invariant forall k' :: k <= k' < |sums| ==> avg[k'] == sums[k']
    {
      if amount[k] == 0 {
        return Err(DivisionByZero);
      }
      QuotientTimesDivisor(sums[k], amount[k] as real);
      avg := avg[k := avg[k] / (amount[k] as real)];
    }
    r := Ok(avg);
  }

  lemma QuotientTimesDivisor(x: real, y: real)
    requires y > 0.0
    ensures (x / y) * y == x
    ensures x >= 0.0 ==> x / y >= 0.0
  {
  }

  // ---------------------------------------------------------------------
  // Retained banners

  /** The banners whose end date is strictly after today, in list order. */
  function StillRunning(banners: seq<Banner>, today: Day): (r: seq<Banner>)
    ensures forall x :: x in r <==> x in banners && today < x.dateEnd
    ensures multiset(r) <= multiset(banners)
    decreases |banners|
  {
    if |banners| == 0 then []
    else
      assert banners == [banners[0]] + banners[1..];
      (if DaysTo(today, banners[0].dateEnd) > 0 then [banners[0]] else []) + StillRunning(banners[1..], today)
  }

  /** The filter keeps list order: filtering a concatenation concatenates
      the filtered parts. */
  lemma {:induction false} StillRunningOfConcat(a: seq<Banner>, b: seq<Banner>, today: Day)
    ensures StillRunning(a + b, today) == StillRunning(a, today) + StillRunning(b, today)
    decreases |a|
  {
    if |a| == 0 {
      assert a + b == b;
    } else {
      assert (a + b)[1..] == a[1..] + b;
      StillRunningOfConcat(a[1..], b, today);
    }
  }

  /** The filter keeps every copy of a banner still running after today
      and drops every copy of the others. */
  lemma {:induction false} StillRunningMultiplicity(banners: seq<Banner>, today: Day, x: Banner)
    ensures multiset(StillRunning(banners, today))[x] == if today < x.dateEnd then multiset(banners)[x] else 0
    decreases |banners|
  {
    if |banners| > 0 {
      assert banners == [banners[0]] + banners[1..];
      assert multiset(banners) == multiset{banners[0]} + multiset(banners[1..]);
      StillRunningMultiplicity(banners[1..], today, x);
    }
  }

  function MinKey(b: Banner): int {
    b.minShowings
  }

  /** `_sort_banners`: keeps the banners still running after today and
      sorts them stably by minimum quota. */
  function SortBanners(banners: seq<Banner>, today: Day): (r: seq<Banner>)
    ensures forall x :: x in r <==> x in banners && today < x.dateEnd
    ensures multiset(r) == multiset(StillRunning(banners, today))
    ensures SortedBy(r, MinKey)
    ensures forall k :: WithKey(r, MinKey, k) == WithKey(StillRunning(banners, today), MinKey, k)
  {
    var running := StillRunning(banners, today);
    SortIsStableForAllKeys(running, MinKey);
    var r := Sort(running, MinKey);
    assert forall x :: x in r <==> x in multiset(running);
    r
  }

  // ---------------------------------------------------------------------
  // Allocation

  ghost predicate NonNegativeMins(banners: seq<Banner>) {
    forall i :: 0 <= i < |banners| ==> banners[i].minShowings >= 0
  }

  /** `_sum_min_showings_for_date`: the minimum quotas of the banners
      active on the date. With non-negative quotas it is at least each
      active banner's quota, and 0 exactly when all of those are 0. */
  function SumMinShowingsForDate(banners: seq<Banner>, date: Day): (r: int)
    ensures NonNegativeMins(banners) ==> 0 <= r
    ensures NonNegativeMins(banners) ==>
      forall i :: 0 <= i < |banners| && IsActiveOnDate(banners[i], date) ==> banners[i].minShowings <= r
    ensures NonNegativeMins(banners) ==>
      (r == 0 <==> forall i :: 0 <= i < |banners| && IsActiveOnDate(banners[i], date) ==> banners[i].minShowings == 0)
  {
    MinPoolBounds(banners, date);
    MinPool(banners, date)
  }

  /** The sum itself, front to back. */
  function MinPool(banners: seq<Banner>, date: Day): int
    decreases |banners|
  {
    if |banners| == 0 then 0
    else Share(banners[0], date) + MinPool(banners[1..], date)
  }

  /** What one banner adds to the pool of a date. */
  function Share(b: Banner, date: Day): int {
    if IsActiveOnDate(b, date) then b.minShowings else 0
  }

  lemma {:induction false} MinPoolBounds(banners: seq<Banner>, date: Day)
    ensures NonNegativeMins(banners) ==> 0 <= MinPool(banners, date)
    ensures NonNegativeMins(banners) ==>
      forall i :: 0 <= i < |banners| && IsActiveOnDate(banners[i], date) ==> banners[i].minShowings <= MinPool(banners, date)
    ensures NonNegativeMins(banners) ==>
      (MinPool(banners, date) == 0 <==>
       forall i :: 0 <= i < |banners| && IsActiveOnDate(banners[i], date) ==> banners[i].minShowings == 0)
    decreases |banners|
  {
    if |banners| > 0 {
      MinPoolBounds(banners[1..], date);
      assert forall i :: 1 <= i < |banners| ==> banners[i] == banners[1..][i - 1];
      assert NonNegativeMins(banners) ==> NonNegativeMins(banners[1..]);
    }
  }

  lemma {:induction false} SumMinOfConcat(a: seq<Banner>, b: seq<Banner>, date: Day)
    ensures SumMinShowingsForDate(a + b, date) == SumMinShowingsForDate(a, date) + SumMinShowingsForDate(b, date)
  {
    MinPoolOfConcat(a, b, date);
  }

  lemma {:induction false} MinPoolOfConcat(a: seq<Banner>, b: seq<Banner>, date: Day)
    ensures MinPool(a + b, date) == MinPool(a, date) + MinPool(b, date)
    decreases |a|
  {
    if |a| == 0 {
      assert a + b == b;
    } else {
      assert (a + b)[1..] == a[1..] + b;
      MinPoolOfConcat(a[1..], b, date);
    }
  }

  /** The pool of a date does not depend on the order of the banners, so
      sorting the retained banners leaves every pool unchanged. */
  lemma {:induction false} SumMinOfPermutation(a: seq<Banner>, b: seq<Banner>, date: Day)
    requires multiset(a) == multiset(b)
    ensures SumMinShowingsForDate(a, date) == SumMinShowingsForDate(b, date)
  {
    MinPoolOfPermutation(a, b, date);
  }

  lemma {:induction false} MinPoolOfPermutation(a: seq<Banner>, b: seq<Banner>, date: Day)
    requires multiset(a) == multiset(b)
    ensures MinPool(a, date) == MinPool(b, date)
    decreases |a|
  {
    if |a| > 0 {
      assert a[0] in multiset(b);
      var j :| 0 <= j < |b| && b[j] == a[0];
      assert a == [a[0]] + a[1..];
      var rest := RemoveAt(b, j);
      assert multiset(rest) == multiset(b) - multiset{b[j]};
      assert multiset(a[1..]) == multiset(a) - multiset{a[0]};
      MinPoolOfPermutation(a[1..], rest, date);
      MinPoolWithout(b, j, date);
    }
  }

  /** Taking one banner out of a list takes its share out of the pool. */
  lemma {:induction false} MinPoolWithout(b: seq<Banner>, j: nat, date: Day)
    requires j < |b|
    ensures MinPool(b, date) == Share(b[j], date) + MinPool(RemoveAt(b, j), date)
    decreases j
  {
    if j == 0 {
      assert RemoveAt(b, 0) == b[1..];
    } else {
      MinPoolWithout(b[1..], j - 1, date);
      RemoveAtBehindHead(b, j);
      var front := RemoveAt(b, j);
      assert front[1..] == RemoveAt(b[1..], j - 1);
    }
  }

  /** Python's `round` on a real: the nearest integer, ties to even. */
  function RoundHalfEven(x: real): (r: int)
    ensures x - 0.5 <= r as real <= x + 0.5
    ensures (r as real == x - 0.5 || r as real == x + 0.5) ==> r % 2 == 0
  {
    var f := x.Floor;
    var diff := x - f as real;
    if diff < 0.5 then f
    else if diff > 0.5 then f + 1
    else if f % 2 == 0 then f
    else f + 1
  }

  /** The forecast of one active banner for one date: its proportional
      share of the day's target, rounded, and lowered to its maximum. */
  function Allocate(b: Banner, target: real, pool: int): (r: int)
    requires pool != 0
    ensures r <= b.maxShowings
    ensures RoundHalfEven((b.minShowings as real) * target / (pool as real)) <= b.maxShowings ==>
      r == RoundHalfEven((b.minShowings as real) * target / (pool as real))
    ensures RoundHalfEven((b.minShowings as real) * target / (pool as real)) > b.maxShowings ==>
      r == b.maxShowings
    ensures 0 <= b.minShowings && 0 <= b.maxShowings && 0.0 <= target && 0 < pool ==> 0 <= r
  {
    var share := (b.minShowings as real) * target / (pool as real);
    var rounded := RoundHalfEven(share);
    if rounded > b.maxShowings then b.maxShowings else rounded
  }

  /** Some banner is active on the date but the quotas of the active
      banners add up to 0: the allocation divides by zero. */
  predicate ZeroPoolOn(banners: seq<Banner>, date: Day) {
    && (exists i :: 0 <= i < |banners| && IsActiveOnDate(banners[i], date))
    && SumMinShowingsForDate(banners, date) == 0
  }

  predicate NoZeroPool(banners: seq<Banner>, from: Day, to: Day) {
    forall d :: from <= d <= to ==> !ZeroPoolOn(banners, d)
  }

  /** On a day without a zero pool, an active banner has a non-zero pool. */
  lemma PoolOfActiveBanner(banners: seq<Banner>, i: nat, from: Day, to: Day, d: Day)
    requires NoZeroPool(banners, from, to) && from <= d <= to
    requires i < |banners| && IsActiveOnDate(banners[i], d)
    ensures SumMinShowingsForDate(banners, d) != 0
  {
    assert !ZeroPoolOn(banners, d);
  }

  /** The forecast entry of active banner `i` on date `d`. */
  function DayEntry(banners: seq<Banner>, i: nat, avg: seq<real>, d: Day): (r: Entry)
    requires |avg| == 7 && i < |banners| && SumMinShowingsForDate(banners, d) != 0
    ensures r.showings <= banners[i].maxShowings
  {
    Entry(d, Allocate(banners[i], avg[DayOfWeek(d) - 1], SumMinShowingsForDate(banners, d)))
  }

  /** The entry's value is banner `i`'s allocation on the entry's date: the
      date's pool is non-zero and the value is the capped, rounded share
      of that weekday's average. */
  predicate Allocated(banners: seq<Banner>, i: nat, avg: seq<real>, e: Entry)
    requires |avg| == 7 && i < |banners|
  {
    && SumMinShowingsForDate(banners, e.date) != 0
    && e.showings == Allocate(banners[i], avg[DayOfWeek(e.date) - 1], SumMinShowingsForDate(banners, e.date))
  }

  /** The first day a banner is forecast for. */
  function FirstForecastDay(b: Banner, today: Day): Day {
    if b.dateStart > today then b.dateStart else today
  }

  /** The forecast of banner `i` up to `last`: one entry per day from today
      (or its start, if later) to `last`, whatever its end date. */
  function ForecastSeries(banners: seq<Banner>, i: nat, avg: seq<real>, today: Day, last: Day): (r: seq<Entry>)
    requires |avg| == 7 && i < |banners| && NoZeroPool(banners, today, last)
    ensures forall j :: 0 <= j < |r| ==> today <= r[j].date <= last && IsActiveOnDate(banners[i], r[j].date)
    ensures forall d :: today <= d <= last && IsActiveOnDate(banners[i], d) ==>
      exists j :: 0 <= j < |r| && r[j].date == d
    ensures forall j, j' :: 0 <= j < j' < |r| ==> r[j].date < r[j'].date
    ensures forall j :: 0 <= j < |r| ==> r[j].showings <= banners[i].maxShowings
    ensures forall j :: 0 <= j < |r| ==> Allocated(banners, i, avg, r[j])
    decreases last - FirstForecastDay(banners[i], today)
  {
    if last < FirstForecastDay(banners[i], today) then []
    else
      PoolOfActiveBanner(banners, i, today, last, last);
      var prefix := ForecastSeries(banners, i, avg, today, last - 1);
      var e := DayEntry(banners, i, avg, last);
      ExtendSeries(banners, i, avg, today, last, prefix, e);
      prefix + [e]
  }

  /** One more day at the end of a series keeps the series' properties. */
  lemma ExtendSeries(banners: seq<Banner>, i: nat, avg: seq<real>, today: Day, last: Day,
                     prefix: seq<Entry>, e: Entry)
    requires |avg| == 7 && i < |banners|
    requires forall j :: 0 <= j < |prefix| ==> today <= prefix[j].date <= last - 1 && IsActiveOnDate(banners[i], prefix[j].date)
    requires forall d :: today <= d <= last - 1 && IsActiveOnDate(banners[i], d) ==>
      exists j :: 0 <= j < |prefix| && prefix[j].date == d
    requires forall j, j' :: 0 <= j < j' < |prefix| ==> prefix[j].date < prefix[j'].date
    requires forall j :: 0 <= j < |prefix| ==> prefix[j].showings <= banners[i].maxShowings
    requires forall j :: 0 <= j < |prefix| ==> Allocated(banners, i, avg, prefix[j])
    requires e.date == last && today <= last && IsActiveOnDate(banners[i], last)
    requires e.showings <= banners[i].maxShowings && Allocated(banners, i, avg, e)
    ensures var r := prefix + [e];
      && (forall j :: 0 <= j < |r| ==> today <= r[j].date <= last && IsActiveOnDate(banners[i], r[j].date))
      && (forall d :: today <= d <= last && IsActiveOnDate(banners[i], d) ==>
            exists j :: 0 <= j < |r| && r[j].date == d)
      && (forall j, j' :: 0 <= j < j' < |r| ==> r[j].date < r[j'].date)
      && (forall j :: 0 <= j < |r| ==> r[j].showings <= banners[i].maxShowings)
      && (forall j :: 0 <= j < |r| ==> Allocated(banners, i, avg, r[j]))
  {
    var r := prefix + [e];
    assert forall j :: 0 <= j < |prefix| ==> r[j] == prefix[j];
    assert r[|prefix|] == e;
    forall d | today <= d <= last && IsActiveOnDate(banners[i], d)
      ensures exists j :: 0 <= j < |r| && r[j].date == d
    {
      if d == last {
        assert r[|prefix|].date == d;
      } else {
        var j :| 0 <= j < |prefix| && prefix[j].date == d;
        assert r[j].date == d;
      }
    }
  }

  /** Extending the horizon by one day appends that day's entry exactly
      when the banner is active on it. */
  lemma SeriesStep(banners: seq<Banner>, i: nat, avg: seq<real>, today: Day, date: Day)
    requires |avg| == 7 && i < |banners| && today <= date && NoZeroPool(banners, today, date)
    ensures NoZeroPool(banners, today, date - 1)
    ensures IsActiveOnDate(banners[i], date) ==> SumMinShowingsForDate(banners, date) != 0
    ensures ForecastSeries(banners, i, avg, today, date)
      == ForecastSeries(banners, i, avg, today, date - 1)
         + (if IsActiveOnDate(banners[i], date) then [DayEntry(banners, i, avg, date)] else [])
  {
    if IsActiveOnDate(banners[i], date) {
      PoolOfActiveBanner(banners, i, today, date, date);
    }
  }

  /** `_calc_forecast_for_date`: appends the day's entry to the series of
      every banner active on it. It fails with a division by zero exactly
      when some banner is active but the pool of that day is 0. */
  method ForecastDay(banners: seq<Banner>, avg: seq<real>, date: Day, forecasts: seq<seq<Entry>>)
    returns (r: Result<seq<seq<Entry>>>)
    requires |avg| == 7 && |forecasts| == |banners|
    ensures r.Err? <==> ZeroPoolOn(banners, date)
    ensures r.Err? ==> r.error == DivisionByZero
    ensures r.Ok? ==> |r.value| == |banners| && forall i :: 0 <= i < |banners| ==>
      r.value[i] == forecasts[i] + (if IsActiveOnDate(banners[i], date) then [DayEntry(banners, i, avg, date)] else [])
  {
    var target := avg[DayOfWeek(date) - 1];
    var pool := SumMinShowingsForDate(banners, date);
    var step := forecasts;
    for i := 0 to |banners|
      invariant |step| == |banners|
      invariant pool == 0 ==> forall i' :: 0 <= i' < i ==> !IsActiveOnDate(banners[i'], date)
      invariant forall i' :: 0 <= i' < i ==>
        step[i'] == forecasts[i'] + (if IsActiveOnDate(banners[i'], date) then [DayEntry(banners, i', avg, date)] else [])
      invariant forall i' :: i <= i' < |banners| ==> step[i'] == forecasts[i']
    {
      if IsActiveOnDate(banners[i], date) {
        if pool == 0 {
          assert ZeroPoolOn(banners, date);
          return Err(DivisionByZero);
        }
        var shForDate := Allocate(banners[i], target, pool);
        step := step[i := step[i] + [Entry(date, shForDate)]];
      }
    }
    r := Ok(step);
  }

  /** `_calc_forecast_for_banners`: walks the days from today to `maxDate`
      and, on each, gives every active banner its entry. It fails with a
      division by zero exactly when some day in that range has an active
      banner but a zero pool; otherwise every banner gets its forecast
      series. */
  method CalcForecastForBanners(banners: seq<Banner>, avg: seq<real>, today: Day, maxDate: Day)
    returns (r: Result<seq<seq<Entry>>>)
    requires |avg| == 7
    ensures r.Err? <==> !NoZeroPool(banners, today, maxDate)
    ensures r.Err? ==> r.error == DivisionByZero
    ensures r.Ok? ==> |r.value| == |banners|
    ensures r.Ok? ==> forall i :: 0 <= i < |banners| ==>
      r.value[i] == ForecastSeries(banners, i, avg, today, maxDate)
  {
    var forecasts: seq<seq<Entry>> := seq(|banners|, _ => []);
    var date := today;
    while DaysTo(date, maxDate) >= 0
      invariant today <= date && (date <= maxDate + 1 || date == today)
      invariant NoZeroPool(banners, today, date - 1)
      invariant |forecasts| == |banners|
      invariant forall i :: 0 <= i < |banners| ==>
        forecasts[i] == ForecastSeries(banners, i, avg, today, date - 1)
      decreases maxDate - date
    {
      var step := ForecastDay(banners, avg, date, forecasts);
      if step.Err? {
        return Err(DivisionByZero);
      }
      forall i | 0 <= i < |banners|
        ensures step.value[i] == ForecastSeries(banners, i, avg, today, date)
      {
        SeriesStep(banners, i, avg, today, date);
      }
      forecasts := step.value;
      date := date + 1;
    }
    r := Ok(forecasts);
  }

  /** With valid banners and non-negative averages a day's entry lies
      between 0 and the banner's maximum. */
  lemma DayEntryWithinQuota(banners: seq<Banner>, i: nat, avg: seq<real>, d: Day)
    requires |avg| == 7 && i < |banners| && SumMinShowingsForDate(banners, d) != 0
    requires forall b :: b in banners ==> b.Valid()
    requires NonNegative(avg)
    ensures 0 <= DayEntry(banners, i, avg, d).showings <= banners[i].maxShowings
  {
    assert NonNegativeMins(banners) by {
      assert forall j :: 0 <= j < |banners| ==> banners[j] in banners;
    }
    assert banners[i] in banners;
    var w := DayOfWeek(d);
    assert avg[w - 1] >= 0.0;
  }

  /** With valid banners and non-negative averages every forecast value
      lies between 0 and the banner's maximum. */
  lemma {:induction false} SeriesWithinQuota(banners: seq<Banner>, i: nat, avg: seq<real>, today: Day, last: Day)
    requires |avg| == 7 && i < |banners| && NoZeroPool(banners, today, last)
    requires forall b :: b in banners ==> b.Valid()
    requires NonNegative(avg)
    ensures forall j :: 0 <= j < |ForecastSeries(banners, i, avg, today, last)| ==>
      0 <= ForecastSeries(banners, i, avg, today, last)[j].showings <= banners[i].maxShowings
    decreases last - FirstForecastDay(banners[i], today)
  {
    if last >= FirstForecastDay(banners[i], today) {
      PoolOfActiveBanner(banners, i, today, last, last);
      SeriesWithinQuota(banners, i, avg, today, last - 1);
      DayEntryWithinQuota(banners, i, avg, last);
      var prefix := ForecastSeries(banners, i, avg, today, last - 1);
      var series := ForecastSeries(banners, i, avg, today, last);
      assert series == prefix + [DayEntry(banners, i, avg, last)];
      assert forall j :: 0 <= j < |prefix| ==> series[j] == prefix[j];
    }
  }

  // ---------------------------------------------------------------------
  // The forecaster object

  /** Dates strictly increase along a series. */
  predicate Increasing(series: seq<Entry>) {
    forall j, j' :: 0 <= j < j' < |series| ==> series[j].date < series[j'].date
  }

  /** What `set_banners` leaves behind: one series per retained banner,
      each in date order and within that banner's maximum. */
  predicate Consistent(f: ForecasterState) {
    && |f.averageShInWeek| == 7
    && |f.forecastShowings| == |f.banners|
    && (forall i :: 0 <= i < |f.banners| ==> Increasing(f.forecastShowings[i]))
    && (forall i, j :: 0 <= i < |f.banners| && 0 <= j < |f.forecastShowings[i]| ==>
          f.forecastShowings[i][j].showings <= f.banners[i].maxShowings)
  }

  /** A newly constructed forecaster. Its dates are Qt's null date, which
      nothing reads before the first `set_banners`. */
  const Fresh: ForecasterState := ForecasterState(Zeros, [], [], 0, 0)

  /** `get_forecast_for_banner`: the dates of one banner's forecast series
      with the forecast, minimum and maximum showings on each, addressed
      by a Python index (negative counts from the end). */
  function GetForecastForBanner(f: ForecasterState, index: int): (r: Result<(seq<Day>, seq<int>, seq<int>, seq<int>)>)
    ensures r.Ok? ==> |r.value.0| == |r.value.1| == |r.value.2| == |r.value.3|
    ensures r.Err? ==> r.error == IndexOutOfRange
    ensures Consistent(f) ==> (r.Ok? <==> -|f.banners| <= index < |f.banners|)
    ensures Consistent(f) && r.Ok? ==>
      var k := PyIndex(index, |f.banners|).value;
      && |r.value.0| == |f.forecastShowings[k]|
      && (forall j, j' :: 0 <= j < j' < |r.value.0| ==> r.value.0[j] < r.value.0[j'])
      && (forall j :: 0 <= j < |r.value.0| ==>
            && r.value.0[j] == f.forecastShowings[k][j].date
            && r.value.1[j] == f.forecastShowings[k][j].showings
            && r.value.2[j] == f.banners[k].minShowings
            && r.value.3[j] == f.banners[k].maxShowings
            && r.value.1[j] <= r.value.3[j])
  {
    var k :- PyIndex(index, |f.forecastShowings|);
    var series := f.forecastShowings[k];
    if |series| == 0 then Ok(([], [], [], []))
    else
      var kb :- PyIndex(index, |f.banners|);
      var b := f.banners[kb];
      Ok((seq(|series|, j requires 0 <= j < |series| => series[j].date),
          seq(|series|, j requires 0 <= j < |series| => series[j].showings),
          seq(|series|, _ => b.minShowings),
          seq(|series|, _ => b.maxShowings)))
  }

  /** A newly constructed forecaster holds no forecast for any index. */
  lemma FreshHasNoForecast(index: int)
    ensures GetForecastForBanner(Fresh, index) == Err(IndexOutOfRange)
  {
  }

  /** Forecast series, one per banner, make a consistent forecaster. */
  lemma SeriesAreConsistent(f: ForecasterState, today: Day)
    requires |f.averageShInWeek| == 7 && |f.forecastShowings| == |f.banners|
    requires NoZeroPool(f.banners, today, f.maxDate)
    requires forall i :: 0 <= i < |f.banners| ==>
      f.forecastShowings[i] == ForecastSeries(f.banners, i, f.averageShInWeek, today, f.maxDate)
    ensures Consistent(f)
  {
  }

  /** `set_banners`: date range over all given banners, weekday averages
      from all of them, then the still-running banners sorted by minimum
      quota and their forecasts up to the latest end date. */
  method SetBanners(f: ForecasterState, banners: seq<Banner>, today: Day) returns (r: Result<ForecasterState>)
    requires |f.averageShInWeek| == 7
    ensures r.Err? <==>
      || today - MinMaxDates(banners, today).0 < 7
      || !NoZeroPool(SortBanners(banners, today), today, MinMaxDates(banners, today).1)
    ensures r.Err? ==> r.error == DivisionByZero
    ensures r.Ok? ==> Consistent(r.value)
    ensures r.Ok? ==> r.value.minDate == MinMaxDates(banners, today).0 && r.value.maxDate == MinMaxDates(banners, today).1
    ensures r.Ok? ==> |r.value.averageShInWeek| == 7 && AveragesOf(r.value.averageShInWeek, f.averageShInWeek, banners, r.value.minDate, today)
    ensures r.Ok? && NonNegative(f.averageShInWeek) ==> NonNegative(r.value.averageShInWeek)
    ensures r.Ok? ==> r.value.banners == SortBanners(banners, today)
    ensures r.Ok? ==> NoZeroPool(r.value.banners, today, r.value.maxDate) && forall i :: 0 <= i < |r.value.banners| ==>
      r.value.forecastShowings[i] == ForecastSeries(r.value.banners, i, r.value.averageShInWeek, today, r.value.maxDate)
  {
    var dates := MinMaxDates(banners, today);
    var avg := AnalyseResults(f.averageShInWeek, banners, dates.0, today);
    if avg.Err? {
      return Err(avg.error);
    }
    var sorted := SortBanners(banners, today);
    var forecasts := CalcForecastForBanners(sorted, avg.value, today, dates.1);
    if forecasts.Err? {
      return Err(forecasts.error);
    }
    var g := ForecasterState(avg.value, sorted, forecasts.value, dates.0, dates.1);
    SeriesAreConsistent(g, today);
    r := Ok(g);
  }

  /** After a successful `set_banners` on valid banners, starting from
      non-negative averages, every forecast lies between 0 and its
      banner's maximum. */
  lemma ForecastsWithinQuota(g: ForecasterState, today: Day)
    requires |g.averageShInWeek| == 7 && NonNegative(g.averageShInWeek)
    requires forall b :: b in g.banners ==> b.Valid()
    requires |g.forecastShowings| == |g.banners| && NoZeroPool(g.banners, today, g.maxDate)
    requires forall i :: 0 <= i < |g.banners| ==>
      g.forecastShowings[i] == ForecastSeries(g.banners, i, g.averageShInWeek, today, g.maxDate)
    ensures forall i, j :: 0 <= i < |g.banners| && 0 <= j < |g.forecastShowings[i]| ==>
      0 <= g.forecastShowings[i][j].showings <= g.banners[i].maxShowings
  {
    forall i | 0 <= i < |g.banners|
      ensures forall j :: 0 <= j < |g.forecastShowings[i]| ==>
        0 <= g.forecastShowings[i][j].showings <= g.banners[i].maxShowings
    {
      SeriesWithinQuota(g.banners, i, g.averageShInWeek, today, g.maxDate);
    }
  }
}
