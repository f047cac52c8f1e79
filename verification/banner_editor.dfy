/** The in-memory campaign registry: the list of banners (each owning its
    showings), kept sorted by start or end date, and the operations that
    validate an edit and then apply it. Storage is reduced to the ids it
    hands out for new rows, which the caller passes in. */
module BannerEditor {
  import opened Results
  import opened Dates
  import opened Showings
  import opened Banners
  import opened StableSort

  datatype SortedMode = ByDateStart | ByDateEnd

  datatype Editor = Editor(banners: seq<Banner>, sortedMode: SortedMode)

  /** The sort key of a mode: the start or the end date. */
  function SortKey(mode: SortedMode): Banner -> int {
    match mode
    case ByDateStart => (b: Banner) => b.dateStart
    case ByDateEnd => (b: Banner) => b.dateEnd
  }

  /** `sort_banners`: nothing happens when the mode is already current;
      otherwise the list is stably sorted by the new mode's date. */
  function SortBanners(e: Editor, mode: SortedMode): (r: Editor)
    ensures mode == e.sortedMode ==> r == e
    ensures r.sortedMode == mode
    ensures multiset(r.banners) == multiset(e.banners)
    ensures mode != e.sortedMode ==> SortedBy(r.banners, SortKey(mode))
    ensures mode != e.sortedMode ==>
      forall k :: WithKey(r.banners, SortKey(mode), k) == WithKey(e.banners, SortKey(mode), k)
  {
    if e.sortedMode == mode then e
    else
      SortIsStableForAllKeys(e.banners, SortKey(mode));
      Editor(Sort(e.banners, SortKey(mode)), mode)
  }

  /** `_resort_banners`: stably sorts by the current mode. */
  function ResortBanners(e: Editor): (r: Editor)
    ensures r.sortedMode == e.sortedMode
    ensures multiset(r.banners) == multiset(e.banners)
    ensures SortedBy(r.banners, SortKey(e.sortedMode))
    ensures forall k :: WithKey(r.banners, SortKey(e.sortedMode), k) == WithKey(e.banners, SortKey(e.sortedMode), k)
  {
    SortIsStableForAllKeys(e.banners, SortKey(e.sortedMode));
    Editor(Sort(e.banners, SortKey(e.sortedMode)), e.sortedMode)
  }

  /** Re-sorting a list the registry has just sorted changes nothing. */
  lemma ResortIsIdempotent(e: Editor)
    ensures ResortBanners(ResortBanners(e)) == ResortBanners(e)
  {
    var r := ResortBanners(e);
    SortOfSorted(r.banners, SortKey(e.sortedMode));
  }

  /** `_init_all_banners_from_db` after the load: the registry starts in
      end-date mode and is immediately sorted by start date. */
  function LoadEditor(loaded: seq<Banner>): (r: Editor)
    ensures r.sortedMode == ByDateStart
    ensures multiset(r.banners) == multiset(loaded)
    ensures SortedBy(r.banners, SortKey(ByDateStart))
    ensures forall k :: WithKey(r.banners, SortKey(ByDateStart), k) == WithKey(loaded, SortKey(ByDateStart), k)
  {
    SortBanners(Editor(loaded, ByDateEnd), ByDateStart)
  }

  /** `find_min_max_banner_dates`: the earliest start (at most a hundred
      years ahead) and the latest end, cut back to today. */
  function FindMinMaxBannerDates(banners: seq<Banner>, today: Day): (r: (Day, Day))
    ensures r.0 <= AddYears(today, 100)
    ensures forall i :: 0 <= i < |banners| ==> r.0 <= banners[i].dateStart
    ensures (exists i :: 0 <= i < |banners| && banners[i].dateStart <= AddYears(today, 100)) ==>
              exists i :: 0 <= i < |banners| && r.0 == banners[i].dateStart
    ensures r.1 <= today
    ensures forall i :: 0 <= i < |banners| && banners[i].dateEnd <= today ==> banners[i].dateEnd <= r.1
    ensures (exists i :: 0 <= i < |banners| && today <= banners[i].dateEnd) ==> r.1 == today
    ensures r.1 == today || r.1 == AddYears(today, -100)
            || exists i :: 0 <= i < |banners| && r.1 == banners[i].dateEnd
    ensures r.0 == EarliestStart(banners, AddYears(today, 100))
    ensures var latest := LatestEnd(banners, AddYears(today, -100));
            r.1 == if today < latest then today else latest
  {
    var minDate := EarliestStart(banners, AddYears(today, 100));
    var maxDate := LatestEnd(banners, AddYears(today, -100));
    (minDate, if DaysTo(today, maxDate) > 0 then today else maxDate)
  }

  /** `save_changes_for_banner`: rebuilds the banner at `index` from the
      form data, keeping its id and showings. Nothing changes on failure. */
  function SaveChangesForBanner(e: Editor, short: BannerShortData, index: int): (r: Result<Editor>)
    ensures r.Ok? <==>
      && -|e.banners| <= index < |e.banners|
      && NewBanner(0, short.name, short.companyName, short.dateStart, short.dateEnd,
                   short.minShowings, short.maxShowings, []).Ok?
    ensures short.Valid() && -|e.banners| <= index < |e.banners| ==> r.Ok?
    ensures r.Ok? ==> |r.value.banners| == |e.banners|
    ensures r.Ok? ==>
      var k := PyIndex(index, |e.banners|).value;
      var b := r.value.banners[k];
      && r.value.sortedMode == e.sortedMode
      && |r.value.banners| == |e.banners|
      && (forall j :: 0 <= j < |e.banners| && j != k ==> r.value.banners[j] == e.banners[j])
      && b.Valid()
      && b.id == e.banners[k].id && b.showings == e.banners[k].showings
      && b.name == short.name && b.companyName == short.companyName
      && b.dateStart == short.dateStart && b.dateEnd == short.dateEnd
      && (short.Valid() ==> ToBannerShortData(b) == Ok(short))
  {
    var k :- PyIndex(index, |e.banners|);
    var current := e.banners[k];
    var b :- NewBanner(current.id, short.name, short.companyName, short.dateStart, short.dateEnd,
                       short.minShowings, short.maxShowings, current.showings);
    Ok(e.(banners := ReplaceAt(e.banners, k, b)))
  }

  /** `delete_banner`: removes the banner at a Python index. */
  function DeleteBanner(e: Editor, index: int): (r: Result<Editor>)
    ensures r.Ok? <==> -|e.banners| <= index < |e.banners|
    ensures r.Ok? ==>
      var k := PyIndex(index, |e.banners|).value;
      && r.value.sortedMode == e.sortedMode
      && |r.value.banners| + 1 == |e.banners|
      && (forall j :: 0 <= j < k ==> r.value.banners[j] == e.banners[j])
      && (forall j :: k <= j < |r.value.banners| ==> r.value.banners[j] == e.banners[j + 1])
  {
    var k :- PyIndex(index, |e.banners|);
    Ok(e.(banners := RemoveAt(e.banners, k)))
  }

  /** `add_banner`: appends a banner with the id storage assigned and no
      showings. The list is not re-sorted. */
  function AddBanner(e: Editor, short: BannerShortData, newId: int): (r: Result<Editor>)
    ensures short.Valid() ==> r.Ok?
    ensures r.Ok? ==>
      && r.value.sortedMode == e.sortedMode
      && |r.value.banners| == |e.banners| + 1
      && r.value.banners[..|e.banners|] == e.banners
      && var b := r.value.banners[|e.banners|];
         b.id == newId && b.showings == [] && b.Valid()
         && (short.Valid() ==> ToBannerShortData(b) == Ok(short))
  {
    var b :- NewBanner(newId, short.name, short.companyName, short.dateStart, short.dateEnd,
                       short.minShowings, short.maxShowings, []);
    Ok(e.(banners := e.banners + [b]))
  }

  /** `_check_showing_correct`: the capacity test comes first, so a banner
      whose maximum is 0 never admits a showing; then the date must lie in
      the validity window. */
  function CheckShowingCorrect(short: ShowingShortData, b: Banner): (r: Option<Error>)
    ensures r.None? <==>
      CountShowingsForDate(b.showings, short.datetime.date) < b.maxShowings
      && InPeriod(b, short.datetime.date)
    ensures CountShowingsForDate(b.showings, short.datetime.date) >= b.maxShowings ==>
      r == Some(MaxShowingsReached)
    ensures b.maxShowings <= 0 ==> r == Some(MaxShowingsReached)
    ensures (CountShowingsForDate(b.showings, short.datetime.date) < b.maxShowings
             && !InPeriod(b, short.datetime.date)) ==> r == Some(DateOutsidePeriod)
  {
    var date := short.datetime.date;
    if CountShowingsForDate(b.showings, date) >= b.maxShowings then Some(MaxShowingsReached)
    else if DaysTo(date, b.dateEnd) < 0 || DaysTo(b.dateStart, date) < 0 then Some(DateOutsidePeriod)
    else None
  }

  /** `save_changes_for_showing`: validates against the banner's current
      showings, the one being edited included, then replaces that showing
      in place, keeping its id and attributing it to the banner. */
  function SaveChangesForShowing(e: Editor, short: ShowingShortData, indBanner: int, indShowing: int)
    : (r: Result<Editor>)
    ensures r.Ok? <==>
      && -|e.banners| <= indBanner < |e.banners|
      && var b := e.banners[PyIndex(indBanner, |e.banners|).value];
         && CheckShowingCorrect(short, b).None?
         && -|b.showings| <= indShowing < |b.showings|
    ensures r.Ok? ==> |r.value.banners| == |e.banners|
    ensures r.Ok? ==>
      var kb := PyIndex(indBanner, |e.banners|).value;
      var b := e.banners[kb];
      var ks := PyIndex(indShowing, |b.showings|).value;
      var b' := r.value.banners[kb];
      && r.value.sortedMode == e.sortedMode
      && |r.value.banners| == |e.banners|
      && (forall j :: 0 <= j < |e.banners| && j != kb ==> r.value.banners[j] == e.banners[j])
      && b'.(showings := b.showings) == b
      && |b'.showings| == |b.showings|
      && (forall j :: 0 <= j < |b.showings| && j != ks ==> b'.showings[j] == b.showings[j])
      && b'.showings[ks] == Showing(b.showings[ks].id, short.siteName, short.datetime, b.id)
      && CountShowingsForDate(b'.showings, short.datetime.date) <= b.maxShowings
  {
    var kb :- PyIndex(indBanner, |e.banners|);
    var b := e.banners[kb];
    match CheckShowingCorrect(short, b)
    case Some(err) => Err(err)
    case None =>
      var ks :- PyIndex(indShowing, |b.showings|);
      var sh := Showing(b.showings[ks].id, short.siteName, short.datetime, b.id);
      var b' := b.(showings := ReplaceAt(b.showings, ks, sh));
      CountReplaceAt(b.showings, ks, sh, short.datetime.date);
      Ok(e.(banners := ReplaceAt(e.banners, kb, b')))
  }

  /** `add_showing`: validates, then appends a showing with the id storage
      assigned to that banner only. */
  function AddShowing(e: Editor, short: ShowingShortData, indBanner: int, newId: int): (r: Result<Editor>)
    ensures r.Ok? <==>
      && -|e.banners| <= indBanner < |e.banners|
      && CheckShowingCorrect(short, e.banners[PyIndex(indBanner, |e.banners|).value]).None?
    ensures r.Ok? ==> |r.value.banners| == |e.banners|
    ensures r.Ok? ==>
      var kb := PyIndex(indBanner, |e.banners|).value;
      var b := e.banners[kb];
      var b' := r.value.banners[kb];
      && r.value.sortedMode == e.sortedMode
      && |r.value.banners| == |e.banners|
      && (forall j :: 0 <= j < |e.banners| && j != kb ==> r.value.banners[j] == e.banners[j])
      && b'.(showings := b.showings) == b
      && b'.showings == b.showings + [Showing(newId, short.siteName, short.datetime, b.id)]
      && CountShowingsForDate(b'.showings, short.datetime.date) <= b.maxShowings
  {
    var kb :- PyIndex(indBanner, |e.banners|);
    var b := e.banners[kb];
    match CheckShowingCorrect(short, b)
    case Some(err) => Err(err)
    case None =>
      var b' := Banners.AddShowing(b, Showing(newId, short.siteName, short.datetime, b.id));
      Ok(e.(banners := ReplaceAt(e.banners, kb, b')))
  }

  /** `delete_showing`: pops the showing at a Python index from the banner
      at a Python index. */
  function DeleteShowing(e: Editor, indBanner: int, indShowing: int): (r: Result<Editor>)
    ensures r.Ok? <==>
      && -|e.banners| <= indBanner < |e.banners|
      && -|e.banners[PyIndex(indBanner, |e.banners|).value].showings| <= indShowing
      && indShowing < |e.banners[PyIndex(indBanner, |e.banners|).value].showings|
    ensures r.Ok? ==> |r.value.banners| == |e.banners|
    ensures r.Ok? ==>
      var kb := PyIndex(indBanner, |e.banners|).value;
      var b := e.banners[kb];
      var ks := PyIndex(indShowing, |b.showings|).value;
      var b' := r.value.banners[kb];
      && r.value.sortedMode == e.sortedMode
      && |r.value.banners| == |e.banners|
      && (forall j :: 0 <= j < |e.banners| && j != kb ==> r.value.banners[j] == e.banners[j])
      && b'.(showings := b.showings) == b
      && |b'.showings| + 1 == |b.showings|
      && (forall j :: 0 <= j < ks ==> b'.showings[j] == b.showings[j])
      && (forall j :: ks <= j < |b'.showings| ==> b'.showings[j] == b.showings[j + 1])
  {
    var kb :- PyIndex(indBanner, |e.banners|);
    var popped :- PopShowing(e.banners[kb], indShowing);
    Ok(e.(banners := ReplaceAt(e.banners, kb, popped.1)))
  }

  // ---------------------------------------------------------------------
  // The registry invariant

  /** Every banner in the registry is well formed: valid quotas and window,
      showings inside the window, no date above the maximum. */
  ghost predicate Consistent(e: Editor) {
    forall i :: 0 <= i < |e.banners| ==> WellFormed(e.banners[i])
  }

  lemma ReplaceKeepsConsistent(e: Editor, k: nat, b: Banner)
    requires Consistent(e) && k < |e.banners| && WellFormed(b)
    ensures Consistent(e.(banners := ReplaceAt(e.banners, k, b)))
  {
  }

  lemma AddShowingKeepsConsistent(e: Editor, short: ShowingShortData, indBanner: int, newId: int)
    requires Consistent(e)
    requires AddShowing(e, short, indBanner, newId).Ok?
    ensures Consistent(AddShowing(e, short, indBanner, newId).value)
  {
    var kb := PyIndex(indBanner, |e.banners|).value;
    var b := e.banners[kb];
    var sh := Showing(newId, short.siteName, short.datetime, b.id);
    AddShowingKeepsWellFormed(b, sh);
    ReplaceKeepsConsistent(e, kb, Banners.AddShowing(b, sh));
  }

  lemma SaveChangesForShowingKeepsConsistent(e: Editor, short: ShowingShortData, indBanner: int, indShowing: int)
    requires Consistent(e)
    requires SaveChangesForShowing(e, short, indBanner, indShowing).Ok?
    ensures Consistent(SaveChangesForShowing(e, short, indBanner, indShowing).value)
  {
    var kb := PyIndex(indBanner, |e.banners|).value;
    var b := e.banners[kb];
    var ks := PyIndex(indShowing, |b.showings|).value;
    var sh := Showing(b.showings[ks].id, short.siteName, short.datetime, b.id);
    ReplaceShowingKeepsWellFormed(b, ks, sh);
    ReplaceKeepsConsistent(e, kb, b.(showings := ReplaceAt(b.showings, ks, sh)));
  }

  lemma DeleteShowingKeepsConsistent(e: Editor, indBanner: int, indShowing: int)
    requires Consistent(e)
    requires DeleteShowing(e, indBanner, indShowing).Ok?
    ensures Consistent(DeleteShowing(e, indBanner, indShowing).value)
  {
    var kb := PyIndex(indBanner, |e.banners|).value;
    var b := e.banners[kb];
    var ks := PyIndex(indShowing, |b.showings|).value;
    RemoveShowingKeepsWellFormed(b, ks);
    ReplaceKeepsConsistent(e, kb, b.(showings := RemoveAt(b.showings, ks)));
  }

  lemma AddBannerKeepsConsistent(e: Editor, short: BannerShortData, newId: int)
    requires Consistent(e)
    requires AddBanner(e, short, newId).Ok?
    ensures Consistent(AddBanner(e, short, newId).value)
  {
    var r := AddBanner(e, short, newId).value;
    var b := r.banners[|e.banners|];
    assert forall d :: CountShowingsForDate(b.showings, d) == 0;
    assert forall i :: 0 <= i < |e.banners| ==> r.banners[i] == e.banners[i];
  }

  lemma DeleteBannerKeepsConsistent(e: Editor, index: int)
    requires Consistent(e)
    requires DeleteBanner(e, index).Ok?
    ensures Consistent(DeleteBanner(e, index).value)
  {
  }

  lemma SortBannersKeepsConsistent(e: Editor, mode: SortedMode)
    requires Consistent(e)
    ensures Consistent(SortBanners(e, mode))
  {
    var r := SortBanners(e, mode);
    forall i | 0 <= i < |r.banners|
      ensures WellFormed(r.banners[i])
    {
      assert r.banners[i] in multiset(r.banners);
      assert r.banners[i] in multiset(e.banners);
      var j :| 0 <= j < |e.banners| && e.banners[j] == r.banners[i];
    }
  }

  /** Editing a banner re-validates only its own fields: a narrower window
      can leave existing showings outside it. */
  lemma SaveChangesForBannerMayBreakConsistency()
    ensures
      var sh := Showing(1, "site", DateTime(5, 0), 1);
      var e := Editor([Banner(1, "b", "c", 0, 10, 0, 2, [sh])], ByDateStart);
      var r := SaveChangesForBanner(e, BannerShortData("b", "c", 6, 10, 0, 2), 0);
      Consistent(e) && r.Ok? && !Consistent(r.value)
  {
    var sh := Showing(1, "site", DateTime(5, 0), 1);
    var b := Banner(1, "b", "c", 0, 10, 0, 2, [sh]);
    assert [sh][..0] == [];
    forall d
      ensures CountShowingsForDate(b.showings, d) <= b.maxShowings
    {
    }
    assert WellFormed(b);
  }

  /** The edit check counts the showing being edited: at a full date,
      re-saving a showing of that date with the same date is refused. */
  lemma SameDayEditAtCapacityRejected(e: Editor, short: ShowingShortData, indBanner: int, indShowing: int)
    requires 0 <= indBanner < |e.banners|
    requires CountShowingsForDate(e.banners[indBanner].showings, short.datetime.date)
             == e.banners[indBanner].maxShowings
    ensures SaveChangesForShowing(e, short, indBanner, indShowing) == Err(MaxShowingsReached)
  {
  }
}
