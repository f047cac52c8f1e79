/** The promotion analyzer: portfolio totals, the date -> banner-id index
    of past showings, and the banners shown on a selected date.

    The Python object never clears its dictionary between calls; the
    dictionary a call starts from is therefore an explicit input here
    (`map[]` for a fresh analyzer). */
module PromotionAnalyzer {
  import opened Results
  import opened Dates
  import opened Showings
  import opened Banners
  import BannerEditor

  datatype Analyzer = Analyzer(
    allBanners: seq<Banner>,
    bannersToShow: seq<Banner>,
    index: map<Day, seq<int>>,
    minDate: Day,
    maxDate: Day,
    selectedDate: Day)

  /** A fresh analyzer. */
  const Fresh: Analyzer := Analyzer([], [], map[], 0, 0, 0)

  // ---------------------------------------------------------------------
  // Portfolio totals

  datatype Totals = Totals(fact: int, minimum: int, maximum: int)

  function AddTotals(a: Totals, b: Totals): Totals {
    Totals(a.fact + b.fact, a.minimum + b.minimum, a.maximum + b.maximum)
  }

  ghost predicate AllValid(banners: seq<Banner>) {
    forall i :: 0 <= i < |banners| ==> banners[i].Valid()
  }

  /** The whole-campaign actual, minimum and maximum showings of one
      banner, as the loop body adds them. */
  function BannerTotals(b: Banner): (r: Totals)
    ensures r.fact == |b.showings|
    ensures r.minimum == CampaignDays(b) * b.minShowings && r.maximum == CampaignDays(b) * b.maxShowings
    ensures b.Valid() ==> 0 <= r.minimum <= r.maximum
  {
    var days := CampaignDays(b);
    if b.Valid() then
      MulMonotone(b.minShowings, b.maxShowings, days);
      Totals(|b.showings|, b.minShowings * days, b.maxShowings * days)
    else
      Totals(|b.showings|, b.minShowings * days, b.maxShowings * days)
  }

  lemma MulMonotone(a: int, b: int, c: int)
    requires 0 <= a <= b && 0 <= c
    ensures 0 <= a * c <= b * c
  {
  }

  /** The per-banner totals are the whole-campaign figures of the banner's
      promotion data, whatever the selected date. */
  lemma BannerTotalsArePromotionFigures(b: Banner, date: Day)
    ensures var p := SetFromBanner(b, date);
            BannerTotals(b) == Totals(p.factShAll, p.minShAll, p.maxShAll)
  {
  }

  /** `get_alltime_data`: the sums over all banners of the whole-campaign
      actual, minimum and maximum showings. */
  function GetAlltimeData(banners: seq<Banner>): (r: Totals)
    ensures r.fact >= 0
    ensures AllValid(banners) ==> 0 <= r.minimum <= r.maximum
    decreases |banners|
  {
    if |banners| == 0 then Totals(0, 0, 0)
    else
      assert AllValid(banners) ==> banners[0].Valid() && AllValid(banners[1..]);
      AddTotals(BannerTotals(banners[0]), GetAlltimeData(banners[1..]))
  }

  lemma {:induction false} AlltimeDataOfConcat(a: seq<Banner>, b: seq<Banner>)
    ensures GetAlltimeData(a + b) == AddTotals(GetAlltimeData(a), GetAlltimeData(b))
    decreases |a|
  {
    if |a| == 0 {
      assert a + b == b;
    } else {
      assert (a + b)[1..] == a[1..] + b;
      AlltimeDataOfConcat(a[1..], b);
    }
  }

  /** The loop of `get_alltime_data`: each banner adds its own totals to
      those of the banners before it. */
  lemma AlltimeDataStep(banners: seq<Banner>, b: Banner)
    ensures GetAlltimeData(banners + [b]) == AddTotals(GetAlltimeData(banners), BannerTotals(b))
  {
    AlltimeDataOfConcat(banners, [b]);
    assert GetAlltimeData([b]) == BannerTotals(b) by {
      assert [b][1..] == [];
    }
  }

  /** Taking banner `j` out of the list takes away exactly its totals. */
  lemma {:induction false} AlltimeDataWithout(b: seq<Banner>, j: nat)
    requires j < |b|
    ensures GetAlltimeData(b) == AddTotals(BannerTotals(b[j]), GetAlltimeData(b[..j] + b[j + 1..]))
    decreases j
  {
    if j == 0 {
      assert b[..0] + b[1..] == b[1..];
    } else {
      var tail := b[1..];
      var rest := tail[..j - 1] + tail[j..];
      AlltimeDataWithout(tail, j - 1);
      assert tail[j - 1] == b[j];
      assert b[..j] + b[j + 1..] == [b[0]] + rest;
      assert ([b[0]] + rest)[1..] == rest;
      AddTotalsShuffle(BannerTotals(b[0]), BannerTotals(b[j]), GetAlltimeData(rest));
    }
  }

  lemma AddTotalsShuffle(p: Totals, t: Totals, q: Totals)
    ensures AddTotals(AddTotals(p, t), q) == AddTotals(t, AddTotals(p, q))
    ensures AddTotals(p, AddTotals(t, q)) == AddTotals(t, AddTotals(p, q))
  {
  }

  /** The totals do not depend on the order of the banners, so sorting the
      registry leaves them unchanged. */
  lemma {:induction false} AlltimeDataOfPermutation(a: seq<Banner>, b: seq<Banner>)
    requires multiset(a) == multiset(b)
    ensures GetAlltimeData(a) == GetAlltimeData(b)
    decreases |a|
  {
    if |a| > 0 {
      var x := a[0];
      assert x in multiset(b);
      var j :| 0 <= j < |b| && b[j] == x;
      var b' := b[..j] + b[j + 1..];
      assert b == b[..j] + [x] + b[j + 1..];
      assert a == [x] + a[1..];
      assert multiset(b') == multiset(b) - multiset{x};
      AlltimeDataOfPermutation(a[1..], b');
      AlltimeDataWithout(b, j);
    }
  }

  // ---------------------------------------------------------------------
  // The date index

  /** The dates the index initialises: `[minDate, maxDate]`. */
  function Window(minDate: Day, maxDate: Day): (w: set<Day>)
    ensures forall d :: d in w <==> minDate <= d <= maxDate
    decreases maxDate - minDate
  {
    if maxDate < minDate then {} else {minDate} + Window(minDate + 1, maxDate)
  }

  /** The initialising loop: every date from `date` to `maxDate` is (re)set
      to an empty list; other keys keep their lists. */
  function InitWindow(m: map<Day, seq<int>>, date: Day, maxDate: Day): (r: map<Day, seq<int>>)
    ensures r.Keys == m.Keys + Window(date, maxDate)
    ensures forall d :: d in r ==> r[d] == (if date <= d <= maxDate then [] else m[d])
    decreases maxDate - date
  {
    if DaysTo(date, maxDate) >= 0 then InitWindow(m[date := []], date + 1, maxDate) else m
  }

  function Repeat(id: int, n: nat): (r: seq<int>)
    ensures |r| == n && forall i :: 0 <= i < n ==> r[i] == id
  {
    seq(n, _ => id)
  }

  /** The ids the showing loops append for date `d`: each banner's id once
      per showing it has on `d`, banner after banner. */
  function IdsOnDate(banners: seq<Banner>, d: Day): seq<int> {
    if |banners| == 0 then []
    else
      var last := banners[|banners| - 1];
      IdsOnDate(banners[..|banners| - 1], d) + Repeat(last.id, CountShowingsForDate(last.showings, d))
  }

  /** Showings of banners carrying id `id` on date `d`, over all banners. */
  function CountIdOnDate(banners: seq<Banner>, id: int, d: Day): nat {
    if |banners| == 0 then 0
    else
      var last := banners[|banners| - 1];
      CountIdOnDate(banners[..|banners| - 1], id, d)
      + (if last.id == id then CountShowingsForDate(last.showings, d) else 0)
  }

  /** The index value the two loops leave at `d`. */
  function ExpectedEntry(prev: map<Day, seq<int>>, banners: seq<Banner>,
                         minDate: Day, maxDate: Day, today: Day, d: Day): seq<int>
    requires d in prev || minDate <= d <= maxDate
  {
    (if minDate <= d <= maxDate then [] else prev[d])
    + (if d <= today then IdsOnDate(banners, d) else [])
  }

  /** The index after a successful rebuild, date by date. */
  function ExpectedIndex(prev: map<Day, seq<int>>, banners: seq<Banner>,
                         minDate: Day, maxDate: Day, today: Day): (m: map<Day, seq<int>>)
    ensures m.Keys == prev.Keys + Window(minDate, maxDate)
  {
    map d | d in prev.Keys + Window(minDate, maxDate) :: ExpectedEntry(prev, banners, minDate, maxDate, today, d)
  }

  /** A showing dated no later than today whose date is not a key: the
      `.get(date).append` call then fails on `None`. */
  predicate Unindexed(keys: set<Day>, today: Day, sh: Showing) {
    sh.datetime.date <= today && sh.datetime.date !in keys
  }

  predicate HasUnindexedShowing(keys: set<Day>, banners: seq<Banner>, today: Day) {
    exists i, j :: 0 <= i < |banners| && 0 <= j < |banners[i].showings|
                   && Unindexed(keys, today, banners[i].showings[j])
  }

  /** `acc` is `m` with the banner's id appended once per showing among
      the first `n` that is dated today or earlier. */
  predicate AppendedUpTo(m: map<Day, seq<int>>, acc: map<Day, seq<int>>, b: Banner, n: nat, today: Day)
    requires n <= |b.showings|
  {
    && acc.Keys == m.Keys
    && forall d :: d in m ==>
         acc[d] == m[d] + (if d <= today then Repeat(b.id, CountShowingsForDate(b.showings[..n], d)) else [])
  }

  /** The inner loop over one banner's showings. */
  method AppendBannerShowings(m: map<Day, seq<int>>, b: Banner, today: Day)
    returns (r: Result<map<Day, seq<int>>>)
    ensures r.Err? <==> exists j :: 0 <= j < |b.showings| && Unindexed(m.Keys, today, b.showings[j])
    ensures r.Err? ==> r.error == MissingDateKey
    ensures r.Ok? ==> r.value.Keys == m.Keys
    ensures r.Ok? ==> forall d :: d in m ==>
      r.value[d] == m[d] + (if d <= today then Repeat(b.id, CountShowingsForDate(b.showings, d)) else [])
  {
    var acc := m;
    assert AppendedUpTo(m, acc, b, 0, today);
    for j := 0 to |b.showings|
      invariant AppendedUpTo(m, acc, b, j, today)
      invariant forall j' :: 0 <= j' < j ==> !Unindexed(m.Keys, today, b.showings[j'])
    {
      var date := b.showings[j].datetime.date;
      if DaysTo(date, today) >= 0 {
        if date !in acc {
          return Err(MissingDateKey);
        }
        AppendShowingStep(m, acc, b, j, today);
        acc := acc[date := acc[date] + [b.id]];
      } else {
        SkipShowingStep(m, acc, b, j, today);
      }
    }
    assert b.showings[..|b.showings|] == b.showings;
    r := Ok(acc);
  }

  /** A showing dated up to today appends the banner's id to its date. */
  lemma AppendShowingStep(m: map<Day, seq<int>>, acc: map<Day, seq<int>>, b: Banner, j: nat, today: Day)
    requires j < |b.showings| && AppendedUpTo(m, acc, b, j, today)
    requires b.showings[j].datetime.date <= today && b.showings[j].datetime.date in acc
    ensures var date := b.showings[j].datetime.date;
      AppendedUpTo(m, acc[date := acc[date] + [b.id]], b, j + 1, today)
  {
    var date := b.showings[j].datetime.date;
    assert b.showings[..j + 1][..j] == b.showings[..j];
    forall d | d in m && d <= today
      ensures acc[date := acc[date] + [b.id]][d]
        == m[d] + Repeat(b.id, CountShowingsForDate(b.showings[..j + 1], d))
    {
      var n := CountShowingsForDate(b.showings[..j], d);
      if d == date {
        assert Repeat(b.id, n + 1) == Repeat(b.id, n) + [b.id];
      }
    }
  }

  /** A showing dated after today changes no list. */
  lemma SkipShowingStep(m: map<Day, seq<int>>, acc: map<Day, seq<int>>, b: Banner, j: nat, today: Day)
    requires j < |b.showings| && AppendedUpTo(m, acc, b, j, today)
    requires today < b.showings[j].datetime.date
    ensures AppendedUpTo(m, acc, b, j + 1, today)
  {
    assert b.showings[..j + 1][..j] == b.showings[..j];
  }

  /** `_set_date_banners_dict`: every date of the window gets an empty
      list, then every showing dated today or earlier appends its banner's
      id to its date's list. It fails exactly when such a showing's date
      has no key; otherwise the result is the expected index, so the list
      at a date holds a banner's id once per showing on that date. */
  method SetDateBannersDict(prev: map<Day, seq<int>>, banners: seq<Banner>,
                            minDate: Day, maxDate: Day, today: Day)
    returns (r: Result<map<Day, seq<int>>>)
    ensures r.Err? <==> HasUnindexedShowing(prev.Keys + Window(minDate, maxDate), banners, today)
    ensures r.Err? ==> r.error == MissingDateKey
    ensures r.Ok? ==> r.value == ExpectedIndex(prev, banners, minDate, maxDate, today)
  {
    var m := InitWindow(prev, minDate, maxDate);
    var keys := m.Keys;
    assert keys == prev.Keys + Window(minDate, maxDate);
    for i := 0 to |banners|
      invariant m.Keys == keys
      invariant forall d :: d in m ==>
        m[d] == (if minDate <= d <= maxDate then [] else prev[d])
                + (if d <= today then IdsOnDate(banners[..i], d) else [])
      invariant !HasUnindexedShowing(keys, banners[..i], today)
    {
      var next := AppendBannerShowings(m, banners[i], today);
      if next.Err? {
        var j :| 0 <= j < |banners[i].showings| && Unindexed(keys, today, banners[i].showings[j]);
        assert Unindexed(keys, today, banners[i].showings[j]);
        return next;
      }
      NoUnindexedSnoc(keys, banners, i, today);
      IndexStep(prev, m, next.value, banners, i, minDate, maxDate, today);
      m := next.value;
    }
    assert banners[..|banners|] == banners;
    IndexIsExpected(prev, m, banners, minDate, maxDate, today);
    r := Ok(m);
  }

  /** After the last banner the loop's map is the expected index. */
  lemma IndexIsExpected(prev: map<Day, seq<int>>, m: map<Day, seq<int>>, banners: seq<Banner>,
                        minDate: Day, maxDate: Day, today: Day)
    requires m.Keys == prev.Keys + Window(minDate, maxDate)
    requires forall d :: d in m ==>
      m[d] == (if minDate <= d <= maxDate then [] else prev[d])
              + (if d <= today then IdsOnDate(banners, d) else [])
    ensures m == ExpectedIndex(prev, banners, minDate, maxDate, today)
  {
    var expected := ExpectedIndex(prev, banners, minDate, maxDate, today);
    assert forall d :: d in m ==> m[d] == expected[d];
  }

  lemma IdsOnDateSnoc(banners: seq<Banner>, i: nat, d: Day)
    requires i < |banners|
    ensures IdsOnDate(banners[..i + 1], d)
         == IdsOnDate(banners[..i], d) + Repeat(banners[i].id, CountShowingsForDate(banners[i].showings, d))
  {
    assert banners[..i + 1][..i] == banners[..i];
  }

  lemma NoUnindexedSnoc(keys: set<Day>, banners: seq<Banner>, i: nat, today: Day)
    requires i < |banners|
    requires !HasUnindexedShowing(keys, banners[..i], today)
    requires forall j :: 0 <= j < |banners[i].showings| ==> !Unindexed(keys, today, banners[i].showings[j])
    ensures !HasUnindexedShowing(keys, banners[..i + 1], today)
  {
    var prefix := banners[..i + 1];
    forall i', j | 0 <= i' < i + 1 && 0 <= j < |prefix[i'].showings|
      ensures !Unindexed(keys, today, prefix[i'].showings[j])
    {
      if i' < i {
        assert prefix[i'] == banners[..i][i'];
      }
    }
  }

  /** One round of the outer loop: appending banner `i`'s ids extends the
      expected lists from the first `i` banners to the first `i + 1`. */
  lemma IndexStep(prev: map<Day, seq<int>>, m: map<Day, seq<int>>, next: map<Day, seq<int>>,
                  banners: seq<Banner>, i: nat, minDate: Day, maxDate: Day, today: Day)
    requires i < |banners|
    requires m.Keys == prev.Keys + Window(minDate, maxDate) && next.Keys == m.Keys
    requires forall d :: d in m ==>
      m[d] == (if minDate <= d <= maxDate then [] else prev[d])
              + (if d <= today then IdsOnDate(banners[..i], d) else [])
    requires forall d :: d in m ==>
      next[d] == m[d] + (if d <= today then Repeat(banners[i].id, CountShowingsForDate(banners[i].showings, d)) else [])
    ensures forall d :: d in next ==>
      next[d] == (if minDate <= d <= maxDate then [] else prev[d])
                 + (if d <= today then IdsOnDate(banners[..i + 1], d) else [])
  {
    forall d | d in next
      ensures next[d] == (if minDate <= d <= maxDate then [] else prev[d])
                         + (if d <= today then IdsOnDate(banners[..i + 1], d) else [])
    {
      assert d in m;
      var base := if minDate <= d <= maxDate then [] else prev[d];
      IndexStepAt(base, m[d], next[d], banners, i, d, today);
    }
  }

  /** `IndexStep` at one date. */
  lemma IndexStepAt(base: seq<int>, before: seq<int>, after: seq<int>,
                    banners: seq<Banner>, i: nat, d: Day, today: Day)
    requires i < |banners|
    requires before == base + (if d <= today then IdsOnDate(banners[..i], d) else [])
    requires after == before + (if d <= today then Repeat(banners[i].id, CountShowingsForDate(banners[i].showings, d)) else [])
    ensures after == base + (if d <= today then IdsOnDate(banners[..i + 1], d) else [])
  {
    if d <= today {
      IdsOnDateSnoc(banners, i, d);
    }
  }

  // ---------------------------------------------------------------------
  // What the index lists mean

  lemma {:induction false} RepeatMultiplicity(x: int, n: nat, id: int)
    ensures multiset(Repeat(x, n))[id] == (if x == id then n else 0)
    decreases n
  {
    if n > 0 {
      assert Repeat(x, n) == Repeat(x, n - 1) + [x];
      RepeatMultiplicity(x, n - 1, id);
    } else {
      assert Repeat(x, n) == [];
    }
  }

  /** The list of a date holds id `id` exactly as often as banners with
      that id have showings on the date (duplicates included). */
  lemma {:induction false} IdsOnDateMultiplicity(banners: seq<Banner>, d: Day, id: int)
    ensures multiset(IdsOnDate(banners, d))[id] == CountIdOnDate(banners, id, d)
    decreases |banners|
  {
    if |banners| > 0 {
      var last := banners[|banners| - 1];
      IdsOnDateMultiplicity(banners[..|banners| - 1], d, id);
      RepeatMultiplicity(last.id, CountShowingsForDate(last.showings, d), id);
    }
  }

  predicate UniqueIds(banners: seq<Banner>) {
    forall i, j :: 0 <= i < j < |banners| ==> banners[i].id != banners[j].id
  }

  /** With distinct ids, the count for a banner's id is that banner's own
      showing count on the date. */
  lemma {:induction false} CountIdOfUniqueBanner(banners: seq<Banner>, k: nat, d: Day)
    requires UniqueIds(banners) && k < |banners|
    ensures CountIdOnDate(banners, banners[k].id, d) == CountShowingsForDate(banners[k].showings, d)
    decreases |banners|
  {
    var init := banners[..|banners| - 1];
    if k < |banners| - 1 {
      assert init[k] == banners[k];
      assert UniqueIds(init);
      CountIdOfUniqueBanner(init, k, d);
    } else {
      CountIdAbsent(init, banners[k].id, d);
    }
  }

  lemma {:induction false} CountIdAbsent(banners: seq<Banner>, id: int, d: Day)
    requires forall i :: 0 <= i < |banners| ==> banners[i].id != id
    ensures CountIdOnDate(banners, id, d) == 0
    decreases |banners|
  {
    if |banners| > 0 {
      CountIdAbsent(banners[..|banners| - 1], id, d);
    }
  }

  lemma {:induction false} CountWithoutDate(showings: seq<Showing>, d: Day)
    requires forall j :: 0 <= j < |showings| ==> showings[j].datetime.date != d
    ensures CountShowingsForDate(showings, d) == 0
    decreases |showings|
  {
    if |showings| > 0 {
      CountWithoutDate(showings[..|showings| - 1], d);
    }
  }

  /** A date no showing falls on collects no ids. */
  lemma {:induction false} IdsOnDateWithoutShowings(banners: seq<Banner>, d: Day)
    requires forall i, j :: 0 <= i < |banners| && 0 <= j < |banners[i].showings| ==>
               banners[i].showings[j].datetime.date != d
    ensures IdsOnDate(banners, d) == []
    decreases |banners|
  {
    if |banners| > 0 {
      var init := banners[..|banners| - 1];
      var last := banners[|banners| - 1];
      CountWithoutDate(last.showings, d);
      IdsOnDateWithoutShowings(init, d);
    }
  }

  /** Every showing dated today or earlier falls inside `[minDate, maxDate]`. */
  predicate ShowingsInWindow(banners: seq<Banner>, minDate: Day, maxDate: Day, today: Day) {
    forall i, j :: 0 <= i < |banners| && 0 <= j < |banners[i].showings| ==>
      banners[i].showings[j].datetime.date <= today ==>
      minDate <= banners[i].showings[j].datetime.date <= maxDate
  }

  /** Rebuilding the index from the same banners gives the same mapping,
      even though the dictionary is never cleared between rebuilds. */
  lemma IndexRebuildIsIdempotent(prev: map<Day, seq<int>>, banners: seq<Banner>,
                                 minDate: Day, maxDate: Day, today: Day)
    requires ShowingsInWindow(banners, minDate, maxDate, today)
    ensures var once := ExpectedIndex(prev, banners, minDate, maxDate, today);
            ExpectedIndex(once, banners, minDate, maxDate, today) == once
  {
    var once := ExpectedIndex(prev, banners, minDate, maxDate, today);
    var twice := ExpectedIndex(once, banners, minDate, maxDate, today);
    forall d | d in twice
      ensures twice[d] == once[d]
    {
      if !(minDate <= d <= maxDate) && d <= today {
        IdsOnDateWithoutShowings(banners, d);
      }
    }
  }

  /** Calling `set_banners` twice with the same well-formed banners on the
      same day leaves the index of the first call. */
  lemma SetBannersIndexIsIdempotent(prev: map<Day, seq<int>>, banners: seq<Banner>, today: Day)
    requires forall i :: 0 <= i < |banners| ==> WellFormed(banners[i])
    ensures var w := BannerEditor.FindMinMaxBannerDates(banners, today);
            var once := ExpectedIndex(prev, banners, w.0, w.1, today);
            ExpectedIndex(once, banners, w.0, w.1, today) == once
  {
    WellFormedBannersAreIndexable(banners, today);
    var w := BannerEditor.FindMinMaxBannerDates(banners, today);
    IndexRebuildIsIdempotent(prev, banners, w.0, w.1, today);
  }

  /** Banners as the registry keeps them never make the rebuild fail: the
      window computed from them covers every past showing. */
  lemma WellFormedBannersAreIndexable(banners: seq<Banner>, today: Day)
    requires forall i :: 0 <= i < |banners| ==> WellFormed(banners[i])
    ensures var w := BannerEditor.FindMinMaxBannerDates(banners, today);
            ShowingsInWindow(banners, w.0, w.1, today)
  {
    var w := BannerEditor.FindMinMaxBannerDates(banners, today);
    forall i, j | 0 <= i < |banners| && 0 <= j < |banners[i].showings|
                  && banners[i].showings[j].datetime.date <= today
      ensures w.0 <= banners[i].showings[j].datetime.date <= w.1
    {
      assert InPeriod(banners[i], banners[i].showings[j].datetime.date);
    }
  }

  lemma NoUnindexedInWindow(prev: map<Day, seq<int>>, banners: seq<Banner>,
                            minDate: Day, maxDate: Day, today: Day)
    requires ShowingsInWindow(banners, minDate, maxDate, today)
    ensures !HasUnindexedShowing(prev.Keys + Window(minDate, maxDate), banners, today)
  {
  }

  // ---------------------------------------------------------------------
  // Operations of the analyzer

  /** `set_banners`: takes the banners, computes the date window and
      rebuilds the index on top of the dictionary left by earlier calls. */
  method SetBanners(a: Analyzer, banners: seq<Banner>, today: Day) returns (r: Result<Analyzer>)
    ensures (forall i :: 0 <= i < |banners| ==> WellFormed(banners[i])) ==> r.Ok?
    ensures var w := BannerEditor.FindMinMaxBannerDates(banners, today);
      r.Err? <==> HasUnindexedShowing(a.index.Keys + Window(w.0, w.1), banners, today)
    ensures r.Err? ==> r.error == MissingDateKey
    ensures r.Ok? ==> (r.value.minDate, r.value.maxDate) == BannerEditor.FindMinMaxBannerDates(banners, today)
    ensures var w := BannerEditor.FindMinMaxBannerDates(banners, today);
      r.Ok? ==> r.value.index == ExpectedIndex(a.index, banners, w.0, w.1, today)
    ensures r.Ok? ==> r.value.allBanners == banners && r.value.bannersToShow == a.bannersToShow
    ensures r.Ok? ==> r.value.selectedDate == a.selectedDate
    ensures r.Ok? ==> r.value.maxDate <= today
    ensures r.Ok? ==> forall i :: 0 <= i < |banners| ==> r.value.minDate <= banners[i].dateStart
    ensures r.Ok? ==> forall d :: r.value.minDate <= d <= r.value.maxDate ==> d in r.value.index
    ensures r.Ok? ==> forall d, id :: r.value.minDate <= d <= r.value.maxDate ==>
      multiset(r.value.index[d])[id] == CountIdOnDate(banners, id, d)
    ensures r.Ok? ==> forall d :: d in r.value.index && today < d ==> d in a.index && r.value.index[d] == a.index[d]
  {
    var w := BannerEditor.FindMinMaxBannerDates(banners, today);
    if forall i :: 0 <= i < |banners| ==> WellFormed(banners[i]) {
      WellFormedBannersAreIndexable(banners, today);
      NoUnindexedInWindow(a.index, banners, w.0, w.1, today);
    }
    var index := SetDateBannersDict(a.index, banners, w.0, w.1, today);
    if index.Err? {
      return Err(index.error);
    }
    ExpectedIndexMeaning(a.index, banners, w.0, w.1, today);
    r := Ok(a.(allBanners := banners, minDate := w.0, maxDate := w.1, index := index.value));
  }

  /** What the expected index says about ids: every window day is a key
      whose list holds each id once per showing of that day, and later
      days keep their previous lists. */
  lemma ExpectedIndexMeaning(prev: map<Day, seq<int>>, banners: seq<Banner>,
                             minDate: Day, maxDate: Day, today: Day)
    requires maxDate <= today
    ensures var m := ExpectedIndex(prev, banners, minDate, maxDate, today);
      && (forall d :: minDate <= d <= maxDate ==> d in m)
      && (forall d, id :: minDate <= d <= maxDate ==> multiset(m[d])[id] == CountIdOnDate(banners, id, d))
      && (forall d :: d in m && today < d ==> d in prev && m[d] == prev[d])
  {
    var m := ExpectedIndex(prev, banners, minDate, maxDate, today);
    ExpectedIndexEntries(prev, banners, minDate, maxDate, today);
    forall d, id | minDate <= d <= maxDate
      ensures multiset(m[d])[id] == CountIdOnDate(banners, id, d)
    {
      IdsOnDateMultiplicity(banners, d, id);
    }
  }

  /** The expected index lists, inside the window (never after today) and
      after today (untouched leftovers). */
  lemma ExpectedIndexEntries(prev: map<Day, seq<int>>, banners: seq<Banner>,
                             minDate: Day, maxDate: Day, today: Day)
    requires maxDate <= today
    ensures var m := ExpectedIndex(prev, banners, minDate, maxDate, today);
      && (forall d :: minDate <= d <= maxDate ==> d in m && m[d] == IdsOnDate(banners, d))
      && (forall d :: d in m && today < d ==> d in prev && m[d] == prev[d])
  {
  }

  /** The inner `for id in ids: if id == banner.id: ... break` test. */
  function ContainsId(ids: seq<int>, id: int): (r: bool)
    ensures r <==> id in ids
  {
    if |ids| == 0 then false
    else if ids[0] == id then true
    else ContainsId(ids[1..], id)
  }

  /** The banners, in their order, whose id occurs in `ids`; each banner
      is taken at most once. */
  function SelectBanners(banners: seq<Banner>, ids: seq<int>): (r: seq<Banner>)
    ensures forall x :: x in r <==> x in banners && x.id in ids
    ensures multiset(r) <= multiset(banners)
    decreases |banners|
  {
    if |banners| == 0 then []
    else
      assert banners == [banners[0]] + banners[1..];
      (if ContainsId(ids, banners[0].id) then [banners[0]] else []) + SelectBanners(banners[1..], ids)
  }

  /** Selection keeps the order of the banner list: selecting from a
      concatenation concatenates the selections. */
  lemma {:induction false} SelectBannersOfConcat(a: seq<Banner>, b: seq<Banner>, ids: seq<int>)
    ensures SelectBanners(a + b, ids) == SelectBanners(a, ids) + SelectBanners(b, ids)
    decreases |a|
  {
    if |a| == 0 {
      assert a + b == b;
    } else {
      assert (a + b)[1..] == a[1..] + b;
      SelectBannersOfConcat(a[1..], b, ids);
    }
  }

  /** `set_banners_to_display`: the banners whose id is listed for the
      date; none when the date has no key. */
  function SetBannersToDisplay(a: Analyzer, date: Day): (r: Analyzer)
    ensures date !in a.index ==> r.bannersToShow == []
    ensures date in a.index ==> r.bannersToShow == SelectBanners(a.allBanners, a.index[date])
    ensures forall x :: x in r.bannersToShow <==>
      x in a.allBanners && date in a.index && x.id in a.index[date]
    ensures multiset(r.bannersToShow) <= multiset(a.allBanners)
    ensures r.selectedDate == date
    ensures r.(bannersToShow := a.bannersToShow, selectedDate := a.selectedDate) == a
  {
    var shown := if date in a.index then SelectBanners(a.allBanners, a.index[date]) else [];
    a.(selectedDate := date, bannersToShow := shown)
  }

  /** `get_banner_info`: the promotion figures of a displayed banner. */
  function GetBannerInfo(a: Analyzer, index: int, date: Day): (r: Result<BannerPromotionData>)
    ensures r.Ok? <==> -|a.bannersToShow| <= index < |a.bannersToShow|
    ensures r.Ok? ==>
      var b := a.bannersToShow[PyIndex(index, |a.bannersToShow|).value];
      && r.value.name == b.name
      && r.value.factShToday == CountShowingsForDate(b.showings, date)
      && r.value.factShAll == |b.showings|
      && r.value.minShToday == b.minShowings
      && r.value == SetFromBanner(b, date)
  {
    var k :- PyIndex(index, |a.bannersToShow|);
    Ok(SetFromBanner(a.bannersToShow[k], date))
  }

  /** A newly constructed analyzer has an empty index: whatever date is
      selected, no banner is displayed and no banner info can be asked for. */
  lemma FreshShowsNothing(date: Day, index: int)
    ensures SetBannersToDisplay(Fresh, date).bannersToShow == []
    ensures GetBannerInfo(SetBannersToDisplay(Fresh, date), index, date) == Err(IndexOutOfRange)
  {
  }
}
