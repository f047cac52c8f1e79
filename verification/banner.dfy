/** The banner value type: a campaign with a validity window, per-day
    quota bounds and the showings recorded against it, together with the
    validating constructors, the quota setters and the per-banner
    promotion figures. */
module Banners {
  import opened Results
  import opened Dates
  import opened Showings

  datatype Banner = Banner(
    id: int,
    name: string,
    companyName: string,
    dateStart: Day,
    dateEnd: Day,
    minShowings: int,
    maxShowings: int,
    showings: seq<Showing>)
  {
    /** What a successful construction guarantees. */
    predicate Valid() {
      dateStart <= dateEnd && 0 <= minShowings <= maxShowings
    }
  }

  /** The validated form input for a banner, before it has an id. */
  datatype BannerShortData = BannerShortData(
    name: string,
    companyName: string,
    dateStart: Day,
    dateEnd: Day,
    minShowings: int,
    maxShowings: int)
  {
    predicate Valid() {
      dateStart <= dateEnd && 0 <= minShowings <= maxShowings
    }
  }

  // ---------------------------------------------------------------------
  // Validation

  /** Python's `0 | x` on integers: or-ing with zero leaves every int as it is. */
  function ZeroOr(x: int): int {
    x
  }

  /** Python's `0 & x` on integers: and-ing with zero gives zero. */
  function ZeroAnd(x: int): int {
    0
  }

  /** The negativity test as Python parses it: `|` binds tighter than `<`,
      so `min < 0 | max < 0` is the chain `min < (0 | max) < 0`. */
  predicate NegativeCheck(minShowings: int, maxShowings: int) {
    minShowings < ZeroOr(maxShowings) && ZeroOr(maxShowings) < 0
  }

  /** The three checks both constructors run, in order, on the raw
      (unclamped) arguments; `None` when all pass. */
  function CheckFields(dateStart: Day, dateEnd: Day, minShowings: int, maxShowings: int): Option<Error> {
    if DaysTo(dateStart, dateEnd) < 0 then Some(IncorrectDates)
    else if NegativeCheck(minShowings, maxShowings) then Some(NegativeShowings)
    else if minShowings > maxShowings then Some(MinAboveMax)
    else None
  }

  /** The quota setters: a negative value is stored as 0. */
  function ClampQuota(v: int): (r: int)
    ensures 0 <= r && v <= r
    ensures r == v || r == 0
  {
    if v < 0 then 0 else v
  }

  /** `Banner.__init__`. It fails exactly when the window is reversed or
      the raw minimum exceeds the raw maximum, or both quotas are negative
      with the minimum strictly below; a negative minimum with a
      non-negative maximum is accepted and stored as 0. */
  function NewBanner(id: int, name: string, companyName: string, dateStart: Day, dateEnd: Day,
                     minShowings: int, maxShowings: int, showings: seq<Showing>): (r: Result<Banner>)
    ensures dateStart > dateEnd ==> r == Err(IncorrectDates)
    ensures dateStart <= dateEnd && minShowings < maxShowings < 0 ==> r == Err(NegativeShowings)
    ensures dateStart <= dateEnd && minShowings > maxShowings ==> r == Err(MinAboveMax)
    ensures r.Ok? <==> dateStart <= dateEnd && minShowings <= maxShowings
                       && (0 <= maxShowings || minShowings == maxShowings)
    ensures r.Ok? ==> r.value.Valid()
    ensures r.Ok? ==> r.value.id == id && r.value.name == name && r.value.companyName == companyName
                      && r.value.dateStart == dateStart && r.value.dateEnd == dateEnd
                      && r.value.showings == showings
    ensures r.Ok? ==> r.value.minShowings == ClampQuota(minShowings)
                      && r.value.maxShowings == ClampQuota(maxShowings)
  {
    match CheckFields(dateStart, dateEnd, minShowings, maxShowings)
    case Some(e) => Err(e)
    case None =>
      Ok(Banner(id, name, companyName, dateStart, dateEnd,
                ClampQuota(minShowings), ClampQuota(maxShowings), showings))
  }

  /** `BannerShortData.__init__`: the same checks and clamping as a banner. */
  function NewBannerShortData(name: string, companyName: string, dateStart: Day, dateEnd: Day,
                              minShowings: int, maxShowings: int): (r: Result<BannerShortData>)
    ensures dateStart > dateEnd ==> r == Err(IncorrectDates)
    ensures dateStart <= dateEnd && minShowings < maxShowings < 0 ==> r == Err(NegativeShowings)
    ensures dateStart <= dateEnd && minShowings > maxShowings ==> r == Err(MinAboveMax)
    ensures r.Ok? <==> dateStart <= dateEnd && minShowings <= maxShowings
                       && (0 <= maxShowings || minShowings == maxShowings)
    ensures r.Ok? ==> r.value.Valid()
    ensures r.Ok? ==> r.value.name == name && r.value.companyName == companyName
                      && r.value.dateStart == dateStart && r.value.dateEnd == dateEnd
    ensures r.Ok? ==> r.value.minShowings == ClampQuota(minShowings)
                      && r.value.maxShowings == ClampQuota(maxShowings)
  {
    match CheckFields(dateStart, dateEnd, minShowings, maxShowings)
    case Some(e) => Err(e)
    case None =>
      Ok(BannerShortData(name, companyName, dateStart, dateEnd,
                         ClampQuota(minShowings), ClampQuota(maxShowings)))
  }

  /** The `min_showings` setter. It floors at 0 and, unlike the
      constructor, does not compare against the maximum. */
  function SetMinShowings(b: Banner, v: int): (r: Banner)
    ensures v < 0 ==> r.minShowings == 0
    ensures 0 <= v ==> r.minShowings == v
    ensures r.minShowings == ClampQuota(v)
    ensures r.(minShowings := b.minShowings) == b
  {
    b.(minShowings := ClampQuota(v))
  }

  /** The `max_showings` setter, flooring at 0. */
  function SetMaxShowings(b: Banner, v: int): (r: Banner)
    ensures v < 0 ==> r.maxShowings == 0
    ensures 0 <= v ==> r.maxShowings == v
    ensures r.maxShowings == ClampQuota(v)
    ensures r.(maxShowings := b.maxShowings) == b
  {
    b.(maxShowings := ClampQuota(v))
  }

  // ---------------------------------------------------------------------
  // Showings of one banner

  /** `add_showing`: appends; nothing but the showings changes. */
  function AddShowing(b: Banner, sh: Showing): (r: Banner)
    ensures r.(showings := b.showings) == b
    ensures r.showings == b.showings + [sh]
    ensures forall d :: CountShowingsForDate(r.showings, d)
                        == CountShowingsForDate(b.showings, d) + (if d == sh.datetime.date then 1 else 0)
  {
    var s := b.showings + [sh];
    assert s[..|s| - 1] == b.showings;
    b.(showings := s)
  }

  /** `pop_showing`: removes and returns the showing at a Python index. */
  function PopShowing(b: Banner, index: int): (r: Result<(Showing, Banner)>)
    ensures r.Ok? <==> -|b.showings| <= index < |b.showings|
    ensures r.Ok? ==>
      var k := PyIndex(index, |b.showings|).value;
      && r.value.0 == b.showings[k]
      && r.value.1.(showings := b.showings) == b
      && r.value.1.showings == RemoveAt(b.showings, k)
  {
    var k :- PyIndex(index, |b.showings|);
    Ok((b.showings[k], b.(showings := RemoveAt(b.showings, k))))
  }

  /** `count_showings_for_date`: the showings whose date is `date`. */
  function CountShowingsForDate(showings: seq<Showing>, date: Day): (r: nat)
    ensures r <= |showings|
  {
    if |showings| == 0 then 0
    else
      CountShowingsForDate(showings[..|showings| - 1], date)
      + (if showings[|showings| - 1].datetime.date == date then 1 else 0)
  }

  /** The dates of a list of showings, in order. */
  function ShowingDates(showings: seq<Showing>): (r: seq<Day>)
    ensures |r| == |showings|
    ensures forall i :: 0 <= i < |showings| ==> r[i] == showings[i].datetime.date
  {
    seq(|showings|, i requires 0 <= i < |showings| => showings[i].datetime.date)
  }

  /** The count agrees with the multiplicity of the date among the showing dates. */
  lemma {:induction false} CountIsDateMultiplicity(showings: seq<Showing>, date: Day)
    ensures CountShowingsForDate(showings, date) == multiset(ShowingDates(showings))[date]
    decreases |showings|
  {
    if |showings| > 0 {
      var init := showings[..|showings| - 1];
      CountIsDateMultiplicity(init, date);
      assert ShowingDates(showings) == ShowingDates(init) + [showings[|showings| - 1].datetime.date];
    }
  }

  /** Counting distributes over concatenation of showing lists. */
  lemma {:induction false} CountConcat(a: seq<Showing>, b: seq<Showing>, date: Day)
    ensures CountShowingsForDate(a + b, date)
         == CountShowingsForDate(a, date) + CountShowingsForDate(b, date)
    decreases |b|
  {
    if |b| == 0 {
      assert a + b == a;
    } else {
      var b' := b[..|b| - 1];
      assert (a + b)[..|a + b| - 1] == a + b';
      CountConcat(a, b', date);
    }
  }

  /** Removing the showing at `k` lowers only the count of its own date, by one. */
  lemma CountRemoveAt(showings: seq<Showing>, k: nat, date: Day)
    requires k < |showings|
    ensures CountShowingsForDate(RemoveAt(showings, k), date)
         == CountShowingsForDate(showings, date) - (if showings[k].datetime.date == date then 1 else 0)
  {
    assert showings == showings[..k] + [showings[k]] + showings[k + 1..];
    CountConcat(showings[..k] + [showings[k]], showings[k + 1..], date);
    CountConcat(showings[..k], [showings[k]], date);
    CountConcat(showings[..k], showings[k + 1..], date);
    assert [showings[k]][..0] == [];
  }

  /** Replacing the showing at `k` by `x` moves one unit of count from the
      old showing's date to the new one's. */
  lemma CountReplaceAt(showings: seq<Showing>, k: nat, x: Showing, date: Day)
    requires k < |showings|
    ensures CountShowingsForDate(ReplaceAt(showings, k, x), date)
         == CountShowingsForDate(showings, date)
            - (if showings[k].datetime.date == date then 1 else 0)
            + (if x.datetime.date == date then 1 else 0)
  {
    var r := ReplaceAt(showings, k, x);
    assert showings == showings[..k] + [showings[k]] + showings[k + 1..];
    assert r == showings[..k] + [x] + showings[k + 1..];
    CountConcat(showings[..k] + [showings[k]], showings[k + 1..], date);
    CountConcat(showings[..k], [showings[k]], date);
    CountConcat(showings[..k] + [x], showings[k + 1..], date);
    CountConcat(showings[..k], [x], date);
    assert [showings[k]][..0] == [] && [x][..0] == [];
  }

  /** A banner as the registry keeps it: valid, every showing inside the
      window and attributed to the banner, and no date above the maximum. */
  ghost predicate WellFormed(b: Banner) {
    && b.Valid()
    && (forall i :: 0 <= i < |b.showings| ==>
          InPeriod(b, b.showings[i].datetime.date) && b.showings[i].bannerId == b.id)
    && (forall d :: CountShowingsForDate(b.showings, d) <= b.maxShowings)
  }

  /** Appending an admissible showing keeps a banner well formed. */
  lemma AddShowingKeepsWellFormed(b: Banner, sh: Showing)
    requires WellFormed(b)
    requires InPeriod(b, sh.datetime.date) && sh.bannerId == b.id
    requires CountShowingsForDate(b.showings, sh.datetime.date) < b.maxShowings
    ensures WellFormed(AddShowing(b, sh))
  {
    var b' := AddShowing(b, sh);
    forall i | 0 <= i < |b'.showings|
      ensures InPeriod(b', b'.showings[i].datetime.date) && b'.showings[i].bannerId == b'.id
    {
      if i < |b.showings| {
        assert b'.showings[i] == b.showings[i];
      }
    }
  }

  /** Replacing a showing by an admissible one keeps a banner well formed,
      provided the new date had room before the old showing was removed. */
  lemma ReplaceShowingKeepsWellFormed(b: Banner, k: nat, sh: Showing)
    requires WellFormed(b) && k < |b.showings|
    requires InPeriod(b, sh.datetime.date) && sh.bannerId == b.id
    requires CountShowingsForDate(b.showings, sh.datetime.date) < b.maxShowings
    ensures WellFormed(b.(showings := ReplaceAt(b.showings, k, sh)))
  {
    var b' := b.(showings := ReplaceAt(b.showings, k, sh));
    forall d
      ensures CountShowingsForDate(b'.showings, d) <= b'.maxShowings
    {
      CountReplaceAt(b.showings, k, sh, d);
    }
  }

  /** Removing a showing keeps a banner well formed. */
  lemma RemoveShowingKeepsWellFormed(b: Banner, k: nat)
    requires WellFormed(b) && k < |b.showings|
    ensures WellFormed(b.(showings := RemoveAt(b.showings, k)))
  {
    var b' := b.(showings := RemoveAt(b.showings, k));
    forall d
      ensures CountShowingsForDate(b'.showings, d) <= b'.maxShowings
    {
      CountRemoveAt(b.showings, k, d);
    }
  }

  /** `is_active_on_date` as Python parses it: `&` binds tighter than
      `>=`, so the test is the chain `start.daysTo(date) >= (0 & ...) >= 0`
      and the end of the window never matters. */
  function IsActiveOnDate(b: Banner, date: Day): (r: bool)
    ensures r <==> b.dateStart <= date
  {
    DaysTo(b.dateStart, date) >= ZeroAnd(DaysTo(date, b.dateEnd)) && ZeroAnd(DaysTo(date, b.dateEnd)) >= 0
  }

  /** The validity window `[date_start, date_end]`, both ends included. */
  predicate InPeriod(b: Banner, date: Day) {
    b.dateStart <= date <= b.dateEnd
  }

  /** Every day of the window counts as active, and so does every day after it. */
  lemma ActiveOnAndAfterWindow(b: Banner, date: Day)
    requires b.Valid() && b.dateStart <= date
    ensures IsActiveOnDate(b, date)
    ensures InPeriod(b, date) <==> date <= b.dateEnd
  {
  }

  /** `to_banner_short_data`: the banner's fields passed through the
      validating `BannerShortData` constructor, so a banner whose fields
      were later broken (a minimum set above the maximum) raises. Rebuilding
      a valid banner from its short data, with its id and showings, gives
      the banner back. */
  function ToBannerShortData(b: Banner): (r: Result<BannerShortData>)
    ensures r.Ok? <==> b.dateStart <= b.dateEnd && b.minShowings <= b.maxShowings
                       && (0 <= b.maxShowings || b.minShowings == b.maxShowings)
    ensures b.dateStart > b.dateEnd ==> r == Err(IncorrectDates)
    ensures b.dateStart <= b.dateEnd && b.minShowings > b.maxShowings ==> r == Err(MinAboveMax)
    ensures b.Valid() ==> r.Ok? && r.value.Valid()
    ensures b.Valid() ==>
      NewBanner(b.id, r.value.name, r.value.companyName, r.value.dateStart, r.value.dateEnd,
                r.value.minShowings, r.value.maxShowings, b.showings) == Ok(b)
  {
    NewBannerShortData(b.name, b.companyName, b.dateStart, b.dateEnd, b.minShowings, b.maxShowings)
  }

  /** The setters do not compare the quotas, so a banner built valid can
      be taken to a state whose short data the constructor refuses. */
  lemma SetterCanBreakShortData()
    ensures var b := SetMinShowings(Banner(1, "n", "c", 10, 20, 0, 3, []), 5);
            ToBannerShortData(b) == Err(MinAboveMax)
  {
  }

  // ---------------------------------------------------------------------
  // Window extremes over a list of banners

  /** The loop `if min_date.daysTo(b.date_start) < 0: min_date = b.date_start`
      started from `init`: the earliest start, or `init` if that is earlier. */
  function EarliestStart(banners: seq<Banner>, init: Day): (r: Day)
    ensures r <= init
    ensures forall i :: 0 <= i < |banners| ==> r <= banners[i].dateStart
    ensures r == init || exists i :: 0 <= i < |banners| && r == banners[i].dateStart
    decreases |banners|
  {
    if |banners| == 0 then init
    else
      var next := if DaysTo(init, banners[0].dateStart) < 0 then banners[0].dateStart else init;
      var r := EarliestStart(banners[1..], next);
      assert forall i :: 1 <= i < |banners| ==> banners[i] == banners[1..][i - 1];
      r
  }

  /** The loop `if max_date.daysTo(b.date_end) > 0: max_date = b.date_end`
      started from `init`: the latest end, or `init` if that is later. */
  function LatestEnd(banners: seq<Banner>, init: Day): (r: Day)
    ensures init <= r
    ensures forall i :: 0 <= i < |banners| ==> banners[i].dateEnd <= r
    ensures r == init || exists i :: 0 <= i < |banners| && r == banners[i].dateEnd
    decreases |banners|
  {
    if |banners| == 0 then init
    else
      var next := if DaysTo(init, banners[0].dateEnd) > 0 then banners[0].dateEnd else init;
      var r := LatestEnd(banners[1..], next);
      assert forall i :: 1 <= i < |banners| ==> banners[i] == banners[1..][i - 1];
      r
  }

  // ---------------------------------------------------------------------
  // Promotion figures

  datatype BannerPromotionData = BannerPromotionData(
    name: string,
    companyName: string,
    minShToday: int,
    maxShToday: int,
    factShToday: nat,
    minShAll: int,
    maxShAll: int,
    factShAll: nat,
    dateStart: Day,
    dateEnd: Day)

  /** Number of days of the validity window, both ends included. */
  function CampaignDays(b: Banner): int {
    DaysTo(b.dateStart, b.dateEnd) + 1
  }

  /** `set_from_banner`: the day's and the whole campaign's minimum,
      maximum and actual showings of a banner. */
  function SetFromBanner(b: Banner, date: Day): (r: BannerPromotionData)
    ensures r.factShToday <= r.factShAll == |b.showings|
    ensures r.minShToday == b.minShowings && r.maxShToday == b.maxShowings
    ensures b.Valid() ==> 0 <= r.minShAll <= r.maxShAll
    ensures b.Valid() ==> r.minShToday <= r.minShAll && r.maxShToday <= r.maxShAll
    ensures r.name == b.name && r.companyName == b.companyName
    ensures r.dateStart == b.dateStart && r.dateEnd == b.dateEnd
    ensures r.minShAll == CampaignDays(b) * b.minShowings && r.maxShAll == CampaignDays(b) * b.maxShowings
    ensures r.factShToday == CountShowingsForDate(b.showings, date)
    ensures r.factShToday == multiset(ShowingDates(b.showings))[date]
  {
    CountIsDateMultiplicity(b.showings, date);
    var days := CampaignDays(b);
    BannerPromotionData(b.name, b.companyName, b.minShowings, b.maxShowings,
                        CountShowingsForDate(b.showings, date),
                        days * b.minShowings, days * b.maxShowings, |b.showings|,
                        b.dateStart, b.dateEnd)
  }

  /** `fact / min * 100`, lowered to 100 when above. Python raises
      ZeroDivisionError when the minimum is 0. */
  function CappedPercent(fact: nat, minimum: int): (r: Result<real>)
    ensures r.Ok? <==> minimum != 0
    ensures r.Ok? ==> r.value <= 100.0
    ensures r.Ok? && minimum > 0 ==> 0.0 <= r.value && (r.value == 100.0 <==> fact >= minimum)
    ensures r.Ok? && 0 < minimum && fact < minimum ==> r.value * (minimum as real) == (fact as real) * 100.0
  {
    if minimum == 0 then Err(DivisionByZero)
    else
      var percent := (fact as real) / (minimum as real) * 100.0;
      Ok(if percent > 100.0 then 100.0 else percent)
  }

  /** `min_comp_percent_today`. */
  function MinCompPercentToday(p: BannerPromotionData): (r: Result<real>)
    ensures r.Ok? <==> p.minShToday != 0
    ensures r.Ok? && p.minShToday > 0 ==>
      0.0 <= r.value <= 100.0 && (r.value == 100.0 <==> p.factShToday >= p.minShToday)
    ensures r.Ok? && 0 < p.minShToday && p.factShToday < p.minShToday ==>
      r.value * (p.minShToday as real) == (p.factShToday as real) * 100.0
  {
    CappedPercent(p.factShToday, p.minShToday)
  }

  /** `min_comp_percent_all`. */
  function MinCompPercentAll(p: BannerPromotionData): (r: Result<real>)
    ensures r.Ok? <==> p.minShAll != 0
    ensures r.Ok? && p.minShAll > 0 ==>
      0.0 <= r.value <= 100.0 && (r.value == 100.0 <==> p.factShAll >= p.minShAll)
    ensures r.Ok? && 0 < p.minShAll && p.factShAll < p.minShAll ==>
      r.value * (p.minShAll as real) == (p.factShAll as real) * 100.0
  {
    CappedPercent(p.factShAll, p.minShAll)
  }
}
