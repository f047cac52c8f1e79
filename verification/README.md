# Campaign core of the banner advertising manager, in Dafny

This project models the domain logic of a desktop tool that manages banner
advertising campaigns. It proves properties of that model. The tool is written
in Python on top of PyQt5. Its core, as modelled here, has four parts:

- **Banners** (`src/models/banner.py`, `src/models/showing.py`) are
  campaigns. Each has a validity window `[date_start, date_end]`, a minimum and
  a maximum number of showings per day, and the list of showings (displays)
  recorded so far. The model covers:
  - the validating constructors;
  - the clamping quota setters;
  - the per-date showing count;
  - the activity test;
  - the promotion figures and completion percentages.
- **The registry** (`src/models/banner_editor.py`) is an in-memory list of
  banners. It can be stable-sorted by start or end date. It supports adding,
  replacing and deleting banners and showings, with an admission check on new
  or edited showings. Storage only supplies fresh ids, so ids are parameters.
- **The promotion analyzer** (`src/models/promotion_analyzer.py`) computes:
  - the date window of the campaign;
  - an index from each day to the ids of the banners shown on it (one id per
    showing);
  - the banners to display for a chosen day;
  - the portfolio totals.
- **The forecaster** (`src/models/forecaster.py`) computes:
  - per-weekday averages of past showings;
  - the banners still running, stably sorted by minimum quota;
  - for each such banner, a day-by-day forecast. Each day's forecast is the
    banner's share of that weekday's average, in proportion to its minimum
    quota, and capped at its maximum.

Dates are Qt Julian day numbers. `a.daysTo(b)` is `b - a`, and `dayOfWeek` is
`d % 7 + 1`, with Monday = 1. `QDate::addYears` is an exact proleptic
Gregorian conversion; 29 February maps to the 28th in non-leap years. "Today"
is a parameter.

Python's list indexing, where negative indices count from the end, is modelled
by `Results.PyIndex`. An index out of range, like every exception the code
raises, becomes an `Err` value of `Results.Result`.

Every Python object is a value here. An operation returns the new state or an
error, and an error leaves the caller's state as it was.

Several behaviours of the code are modelled exactly as written:

- **The negativity check** in both constructors reads
  `min_showings < 0 | max_showings < 0`. Python binds `|` tighter than `<`,
  so this is the chain `min < (0 | max) < 0`, i.e. `min < max < 0`. A negative
  minimum with a non-negative maximum is accepted and stored as 0. A negative
  pair with `min == max` is accepted and stored as `(0, 0)`.
- **The activity test** reads `start.daysTo(d) >= 0 & d.daysTo(end) >= 0`.
  It parses as `start.daysTo(d) >= (0 & d.daysTo(end)) >= 0`, which is just
  `start <= d`. The end date is never consulted, so a forecast runs to the
  latest end date of all banners even for a banner that ended earlier.
- **The forecaster's filter** keeps a banner only when its end date is
  strictly after today.
- **The analyzer's index** includes showings dated today. It records one id
  per showing, so ids repeat.
- **The analyzer's index is never cleared between calls.** Entries for days
  outside the new window survive. The previous index is therefore an explicit
  input.
- **The forecaster's weekday slots are never reset.** A second call starts
  from the previous averages. The previous averages are therefore an explicit
  input (all zero for a fresh forecaster).
- **The index needs a key for every showing dated up to today.** A showing
  dated up to today whose date is neither in the window nor a key left from
  an earlier call has no key, and the code fails on it. Such a showing lies
  before the window, or after the latest end date but still not after
  today. This is the `MissingDateKey` error.
- **The forecaster fails with a division by zero** when:
  - fewer than seven days separate its earliest start from today; or
  - on some day from today to the latest end, a banner is active but the
    minimum quotas of the active banners sum to 0.

Numbers that Python holds as floats are exact `real`s here. Python's `round`
is round-half-to-even on the exact value.

## Model

| member | source | states |
|---|---|---|
| Results.PyIndex | src/models/banner_editor.py:93 | an index is accepted exactly when `-n <= i < n`; a negative index counts back from the end, and the result is always a valid position |
| Results.RemoveAt | src/models/banner_editor.py:103 | `list.pop(k)` removes exactly one element, keeps the order of the rest, and the removed element plus the rest is the original multiset |
| Results.ReplaceAt | src/models/banner_editor.py:98 | item assignment changes position `k` to the new value and no other position |
| Dates.DayOfWeek | src/models/forecaster.py:33 | the weekday is always in 1..7, so `dayOfWeek() - 1` is a valid slot of the seven-slot average list |
| Banners.ClampQuota | src/models/banner.py:42-46 | a stored quota is non-negative, never below the value given, and is either that value or 0 |
| Banners.NewBanner | src/models/banner.py:21-36 | a reversed window fails with the date error; `min < max < 0` fails with the negativity error; `min > max` fails with the min-above-max error; construction succeeds exactly when `start <= end`, `min <= max` and (`max >= 0` or `min == max`); success gives a valid banner with the given id, names, dates and showings and with clamped quotas |
| Banners.NewBannerShortData | src/models/banner.py:105-118 | the same failure cases, success condition and clamping as the banner constructor, for the form data |
| Banners.SetMinShowings | src/models/banner.py:42-46 | the minimum becomes the value given when it is non-negative and 0 when it is negative (the shared clamp `ClampQuota`), and no other field changes |
| Banners.SetMaxShowings | src/models/banner.py:52-56 | the maximum becomes the value given when it is non-negative and 0 when it is negative (the shared clamp `ClampQuota`), and no other field changes |
| Banners.AddShowing | src/models/banner.py:66-67 | only the showings change, and they become the old list with the new showing appended; the count for its date rises by exactly 1 and the count for every other date is unchanged |
| Banners.PopShowing | src/models/banner.py:69-71 | popping succeeds exactly for a valid Python index, returns the element at that position and removes only it |
| Banners.CountShowingsForDate | src/models/banner.py:84-89 | the count of showings on a date never exceeds the number of showings |
| Banners.CountIsDateMultiplicity | src/models/banner.py:84-89 | the count is the multiplicity of the date among the showings' dates |
| Banners.CountConcat | src/models/banner.py:84-89 | the count over two concatenated lists is the sum of the counts |
| Banners.CountRemoveAt | src/models/banner.py:69-71 | removing a showing lowers its date's count by 1 and leaves every other date's count unchanged |
| Banners.CountReplaceAt | src/models/banner_editor.py:130 | replacing a showing moves one unit of count from the old showing's date to the new one's |
| Banners.AddShowingKeepsWellFormed | src/models/banner_editor.py:133-141 | appending a showing that passed the admission check keeps every showing inside the window, attributed to the banner and within the daily maximum |
| Banners.ReplaceShowingKeepsWellFormed | src/models/banner_editor.py:122-131 | replacing a showing with one that passed the admission check keeps the banner well formed |
| Banners.RemoveShowingKeepsWellFormed | src/models/banner.py:69-71 | removing a showing keeps the banner well formed |
| Banners.IsActiveOnDate | src/models/banner.py:91-92 | a banner counts as active on a date exactly when the date is on or after its start, whatever its end |
| Banners.ActiveOnAndAfterWindow | src/models/banner.py:91-92 | for a valid banner the activity test accepts every day from the start on, and it lies inside the window only up to the end date, so days after the end are also reported active |
| Banners.ToBannerShortData | src/models/banner.py:79-81 | the call goes through the validating `BannerShortData` constructor (src/models/banner.py:105-112) and fails exactly when the fields fail one of its three checks (dates, negativity chain, quota order), with the dates error first and the quota-order error for a minimum above the maximum; the form data of a valid banner is valid, and rebuilding the banner from it with the same id and showings gives the original banner back |
| Banners.SetterCanBreakShortData | src/models/banner.py:42-46 | the setter stores a minimum above the maximum unchecked, so the later `to_banner_short_data` call (src/models/banner.py:79-81) raises the quota-order error |
| Banners.EarliestStart | src/models/banner_editor.py:51-53 | the result is at most the initial value and every start date, and it is the initial value or one of the starts |
| Banners.LatestEnd | src/models/banner_editor.py:54-55 | the result is at least the initial value and every end date, and it is the initial value or one of the ends |
| Banners.SetFromBanner | src/models/banner.py:161-172 | today's quotas are the banner's; today's actual count is the number of its showings on the date (the multiplicity of the date among the showing dates) and at most the all-time count, which is the number of showings; the whole-campaign quotas are the daily ones times the number of days of the window, both ends included; for a valid banner `0 <= min_sh_all <= max_sh_all`, and each of today's quotas is at most its whole-campaign total; names and dates are copied |
| Banners.CappedPercent | src/models/banner.py:175-179 | the percentage is defined exactly when the minimum is non-zero and never exceeds 100; with a positive minimum it is non-negative and equals 100 exactly when the actual count reaches the minimum; below the minimum it is exactly `fact * 100 / minimum` |
| Banners.MinCompPercentToday | src/models/banner.py:175-179 | today's completion fails exactly on a zero minimum; with a positive minimum it lies in [0, 100], is 100 exactly when today's count reaches it, and below it is exactly the count times 100 over the minimum |
| Banners.MinCompPercentAll | src/models/banner.py:182-186 | the same for the whole campaign, including the exact value below the minimum |
| StableSort.Insert | src/models/banner_editor.py:33-37 | inserting adds exactly the new element and keeps a key-sorted list key-sorted |
| StableSort.InsertBehindHead | src/models/banner_editor.py:33-37 | inserting behind a head of smaller key keeps the permutation and keeps a sorted list sorted |
| StableSort.Sort | src/models/banner_editor.py:33-37 | `sorted(..., key=...)` returns a permutation that is non-decreasing by key |
| StableSort.WithKeyInsert | src/models/banner_editor.py:33-37 | inserting an element places it after every element with the same key |
| StableSort.SortIsStable | src/models/banner_editor.py:33-37 | for each key value, the elements with that key appear in the sorted list in their original order |
| StableSort.SortIsStableForAllKeys | src/models/forecaster.py:63 | stability holds for every key value at once |
| StableSort.SortOfSorted | src/models/banner_editor.py:42-45 | sorting a list that is already sorted by the key leaves it unchanged |
| BannerEditor.SortBanners | src/models/banner_editor.py:29-38 | asking for the current mode changes nothing; otherwise the mode is recorded and the list becomes a stable permutation sorted by the mode's date |
| BannerEditor.ResortBanners | src/models/banner_editor.py:40-46 | re-sorting by the current mode keeps the mode and gives a stable permutation sorted by that mode's date |
| BannerEditor.ResortIsIdempotent | src/models/banner_editor.py:40-46 | re-sorting twice gives the same list as re-sorting once |
| BannerEditor.LoadEditor | src/models/banner_editor.py:19-27 | a freshly loaded registry is in start-date mode and holds the loaded banners sorted by start date; banners with equal start dates keep their load order |
| BannerEditor.FindMinMaxBannerDates | src/models/banner_editor.py:48-58 | the first date is the earliest start, seeded with today plus 100 years (so it is at most that sentinel and every start, and is a start when one lies before the sentinel); the second is the latest end, seeded with today minus 100 years, cut back to today when it lies after today. The analyzer's own `find_min_max_banner_dates` (src/models/promotion_analyzer.py:39-49) is the same code over its banner list, and this function models both |
| BannerEditor.SaveChangesForBanner | src/models/banner_editor.py:91-98 | the edit succeeds exactly when the index is valid and the form data would construct; on success only that position changes, and it keeps its id and showings and takes the form's names, dates and quotas |
| BannerEditor.DeleteBanner | src/models/banner_editor.py:101-105 | deletion succeeds exactly for a valid index and removes only that banner, keeping the order of the rest |
| BannerEditor.AddBanner | src/models/banner_editor.py:107-115 | valid form data is always added, as a new last banner with the supplied id and no showings; the existing banners are untouched and the list is not re-sorted |
| BannerEditor.CheckShowingCorrect | src/models/banner_editor.py:158-163 | a showing is admitted exactly when its date is inside the window and the banner has fewer than its maximum showings on that date; a full date is always reported as the capacity error, so a zero maximum admits nothing; otherwise a date outside the window is reported as such |
| BannerEditor.SaveChangesForShowing | src/models/banner_editor.py:122-131 | the edit succeeds exactly when both indices are valid and the admission check, counting the edited showing itself, passes; only that showing of that banner changes, it keeps its id, takes the banner's id, and its date stays within the maximum |
| BannerEditor.AddShowing | src/models/banner_editor.py:133-141 | adding succeeds exactly when the banner index is valid and the admission check passes; only that banner changes, by one showing appended with the supplied id, and its date stays within the maximum |
| BannerEditor.DeleteShowing | src/models/banner_editor.py:143-147 | deletion succeeds exactly for valid indices and removes only that showing of that banner, keeping the order of the rest |
| BannerEditor.ReplaceKeepsConsistent | src/models/banner_editor.py:98 | putting a well-formed banner at one position of a consistent registry keeps it consistent |
| BannerEditor.AddShowingKeepsConsistent | src/models/banner_editor.py:133-141 | a successful add keeps every banner's showings in its window and within its daily maximum |
| BannerEditor.SaveChangesForShowingKeepsConsistent | src/models/banner_editor.py:122-131 | a successful showing edit keeps the registry consistent |
| BannerEditor.DeleteShowingKeepsConsistent | src/models/banner_editor.py:143-147 | deleting a showing keeps the registry consistent |
| BannerEditor.AddBannerKeepsConsistent | src/models/banner_editor.py:107-115 | adding a banner keeps the registry consistent |
| BannerEditor.DeleteBannerKeepsConsistent | src/models/banner_editor.py:101-105 | deleting a banner keeps the registry consistent |
| BannerEditor.SortBannersKeepsConsistent | src/models/banner_editor.py:29-38 | sorting keeps the registry consistent |
| BannerEditor.SaveChangesForBannerMayBreakConsistency | src/models/banner_editor.py:91-98 | a banner edit does not re-check existing showings: narrowing the window of a consistent registry succeeds and leaves a showing outside it |
| BannerEditor.SameDayEditAtCapacityRejected | src/models/banner_editor.py:122-131 | at a date already holding the maximum, re-saving a showing to that date is refused even when the showing being edited is one of them |
| PromotionAnalyzer.BannerTotals | src/models/promotion_analyzer.py:33-36 | one banner contributes its number of showings and its daily quotas times the number of days of its window; for a valid banner the minimum total is non-negative and at most the maximum total |
| PromotionAnalyzer.BannerTotalsArePromotionFigures | src/models/promotion_analyzer.py:33-36 | a banner's contribution to the portfolio totals equals the whole-campaign figures of its promotion data |
| PromotionAnalyzer.GetAlltimeData | src/models/promotion_analyzer.py:28-37 | the actual total is non-negative, and over valid banners `0 <= minimum total <= maximum total` |
| PromotionAnalyzer.AlltimeDataOfConcat | src/models/promotion_analyzer.py:28-37 | the totals of two concatenated lists are the component-wise sums |
| PromotionAnalyzer.AlltimeDataStep | src/models/promotion_analyzer.py:32-36 | one pass of the loop adds the banner's own totals to the totals of the banners before it |
| PromotionAnalyzer.AlltimeDataWithout | src/models/promotion_analyzer.py:28-37 | taking one banner out of the list takes away exactly its totals |
| PromotionAnalyzer.AlltimeDataOfPermutation | src/models/promotion_analyzer.py:28-37 | the totals do not depend on the order of the banners |
| PromotionAnalyzer.InitWindow | src/models/promotion_analyzer.py:59-62 | the initialising loop makes every day of the window a key with an empty list, and leaves other keys as they were |
| PromotionAnalyzer.ExpectedIndex | src/models/promotion_analyzer.py:58-67 | the expected index has as keys the previous keys plus the window |
| PromotionAnalyzer.AppendBannerShowings | src/models/promotion_analyzer.py:64-67 | one banner's showings fail exactly when one dated up to today has no key; otherwise each key's list gains the banner's id once per showing of that banner on that day, and nothing else changes |
| PromotionAnalyzer.SetDateBannersDict | src/models/promotion_analyzer.py:58-67 | indexing fails with the missing-key error exactly when some showing dated up to today has no key; otherwise it yields the expected index |
| PromotionAnalyzer.ExpectedIndexMeaning | src/models/promotion_analyzer.py:58-67 | every day of the window is a key whose list holds each id once per showing of that banner on that day, and keys after today keep their previous lists |
| PromotionAnalyzer.IdsOnDateSnoc | src/models/promotion_analyzer.py:63-67 | the ids collected for a day grow, banner by banner, by that banner's id repeated once per showing |
| PromotionAnalyzer.NoUnindexedSnoc | src/models/promotion_analyzer.py:63-67 | if no banner so far has an unindexed showing and the next has none, the extended prefix has none |
| PromotionAnalyzer.IndexStep | src/models/promotion_analyzer.py:63-67 | one pass of the outer loop turns the index for a prefix of the banners into the index for the next prefix |
| PromotionAnalyzer.IndexStepAt | src/models/promotion_analyzer.py:63-67 | the same step at a single date |
| PromotionAnalyzer.IdsOnDateMultiplicity | src/models/promotion_analyzer.py:63-67 | an id occurs in a day's list once per showing on that day of each banner carrying that id |
| PromotionAnalyzer.CountIdOfUniqueBanner | src/models/promotion_analyzer.py:63-67 | with distinct banner ids, a banner's id occurs in a day's list exactly as often as that banner has showings on that day |
| PromotionAnalyzer.CountIdAbsent | src/models/promotion_analyzer.py:63-67 | an id no banner carries never occurs |
| PromotionAnalyzer.CountWithoutDate | src/models/banner.py:84-89 | a date no showing carries has count 0 |
| PromotionAnalyzer.IdsOnDateWithoutShowings | src/models/promotion_analyzer.py:63-67 | a day with no showings of any banner gets an empty list |
| PromotionAnalyzer.IndexRebuildIsIdempotent | src/models/promotion_analyzer.py:51-67 | when every showing up to today lies in the window, indexing again from the result gives the same index |
| PromotionAnalyzer.WellFormedBannersAreIndexable | src/models/promotion_analyzer.py:39-49 | for well-formed banners, every showing dated up to today lies in the window the analyzer computes, so indexing cannot fail |
| PromotionAnalyzer.NoUnindexedInWindow | src/models/promotion_analyzer.py:63-67 | showings inside the window always find their key |
| PromotionAnalyzer.SetBanners | src/models/promotion_analyzer.py:51-54 | the call fails, with a missing date key, exactly when some showing dated up to today has a date that is neither a previous key nor in the window; well-formed banners are always accepted; the window is the one `BannerEditor.FindMinMaxBannerDates` computes; the new index is `ExpectedIndex` of the previous index over that window, so window days hold each id once per showing that day in banner order, keys outside the window keep their previous list plus that day's ids when not after today, and later days keep their previous lists |
| PromotionAnalyzer.SetBannersIndexIsIdempotent | src/models/promotion_analyzer.py:51-67 | calling `set_banners` again with the same well-formed banners on the same day leaves the index of the first call, although the dictionary is never cleared |
| PromotionAnalyzer.ExpectedIndexEntries | src/models/promotion_analyzer.py:58-67 | when the window ends by today, every window day maps to the ids of that day's showings in banner order, and every key after today keeps its previous list |
| PromotionAnalyzer.ContainsId | src/models/promotion_analyzer.py:77-80 | the inner search finds an id exactly when it is in the list |
| PromotionAnalyzer.SelectBanners | src/models/promotion_analyzer.py:75-80 | a banner is selected exactly when its id is in the day's list, and the selection is a sub-multiset of the banners |
| PromotionAnalyzer.SelectBannersOfConcat | src/models/promotion_analyzer.py:75-80 | selection distributes over concatenation, so it keeps the original order |
| PromotionAnalyzer.SetBannersToDisplay | src/models/promotion_analyzer.py:70-81 | a day without a key selects nothing; otherwise the selection is the ordered subsequence `SelectBanners` takes for the day's ids, so a banner is shown exactly when its id is listed for the day, at most as often as it occurs in the banner list; only the selection and the selected day change |
| PromotionAnalyzer.GetBannerInfo | src/models/promotion_analyzer.py:23-26 | the lookup succeeds exactly for a valid Python index into the displayed banners; the result is the promotion data of that banner for the chosen day, so it carries the banner's name, its count on the day, its total number of showings and its quotas |
| PromotionAnalyzer.FreshShowsNothing | src/models/promotion_analyzer.py:6-14 | a newly constructed analyzer, with its empty index, displays no banner for any date and refuses every banner-info request |
| Weekdays.OneInSeven | src/models/forecaster.py:49-55 | any seven consecutive days contain each weekday exactly once |
| Weekdays.WeekBlock | src/models/forecaster.py:49-55 | extending a range by a week adds exactly one of each weekday |
| Weekdays.OccurrencesMonotone | src/models/forecaster.py:49-55 | a longer range contains at least as many of each weekday |
| Weekdays.OccurrenceBounds | src/models/forecaster.py:49-55 | a range of `n` days contains each weekday between `n / 7` and `n / 7 + 1` times |
| Forecaster.MinMaxDates | src/models/forecaster.py:39-46 | over all banners, before filtering: the first date is at most today plus ten years and at most every start, and it is that sentinel or a start; the second is at least today minus ten years and at least every end, and it is that sentinel or an end |
| Forecaster.AmountDaysOfWeek | src/models/forecaster.py:49-55 | the seven counts are the weekday occurrences in `[minDate, today)`; they sum to the length of that range (0 if empty), any two differ by at most one, and all are positive exactly when the range spans at least a week |
| Forecaster.AnalyseResults | src/models/forecaster.py:28-36 | averaging fails with a division by zero exactly when fewer than seven days precede today from `minDate`; otherwise each average times its weekday's occurrences is the slot's previous value plus the showings before today on that weekday, and non-negative slots stay non-negative |
| Forecaster.DivideSlots | src/models/forecaster.py:35-36 | dividing fails exactly when some count is 0; otherwise each quotient times its count gives back the slot |
| Forecaster.StillRunning | src/models/forecaster.py:58-62 | exactly the banners whose end is strictly after today are kept, each no more often than in the input |
| Forecaster.StillRunningOfConcat | src/models/forecaster.py:58-62 | the filter keeps list order: filtering a concatenation concatenates the filtered parts |
| Forecaster.StillRunningMultiplicity | src/models/forecaster.py:58-62 | every copy of a banner that ends after today is kept and every copy of another banner is dropped |
| Forecaster.SortBanners | src/models/forecaster.py:58-63 | the result holds exactly the still-running banners, as a permutation of them, sorted by minimum quota, with equal quotas in input order |
| Forecaster.SumMinShowingsForDate | src/models/forecaster.py:84-89 | with non-negative quotas the pool is non-negative, at least each active banner's minimum, and 0 exactly when every active banner has minimum 0 |
| Forecaster.SumMinOfConcat | src/models/forecaster.py:84-89 | the pool of two concatenated lists is the sum of their pools |
| Forecaster.SumMinOfPermutation | src/models/forecaster.py:84-89 | the pool does not depend on the order of the banners, so sorting leaves it unchanged |
| Forecaster.RoundHalfEven | src/models/forecaster.py:78 | the result is within one half of the value, and an exact half rounds to the even neighbour |
| Forecaster.Allocate | src/models/forecaster.py:78-80 | a day's forecast is the proportional share `min * target / pool`, rounded half to even, when that rounded value is within the banner's maximum, and the maximum otherwise; it never exceeds the maximum, and with non-negative quotas, target and pool it is non-negative |
| Forecaster.PoolOfActiveBanner | src/models/forecaster.py:75-78 | on a day that does not divide by zero, an active banner sees a non-zero pool |
| Forecaster.ForecastSeries | src/models/forecaster.py:66-81 | a banner's forecast has an entry for a day exactly when the day is between today and the horizon and the banner counts as active then; dates strictly increase; each value is the banner's allocation for its date (the pool of that date is non-zero, and the value is the rounded share of that weekday's average, capped at the maximum), so it stays within the maximum |
| Forecaster.ExtendSeries | src/models/forecaster.py:66-81 | adding the next active day's entry to the end of a series keeps its range, coverage, date order, bound and allocation properties |
| Forecaster.SeriesStep | src/models/forecaster.py:74-81 | moving the horizon one day on appends that day's entry exactly when the banner is active on it |
| Forecaster.CalcForecastForBanners | src/models/forecaster.py:66-71 | the day loop fails with a division by zero exactly when some day from today to the horizon has an active banner and a zero pool; otherwise each banner receives its forecast series |
| Forecaster.ForecastDay | src/models/forecaster.py:74-81 | a day fails with a division by zero exactly when some banner is active on it but its pool is 0; otherwise every active banner's series gains that day's entry and every other series is unchanged |
| Forecaster.DayEntryWithinQuota | src/models/forecaster.py:78-80 | for valid banners and non-negative averages, a day's value lies between 0 and the maximum |
| Forecaster.SeriesWithinQuota | src/models/forecaster.py:74-81 | for valid banners and non-negative averages, every forecast value lies between 0 and the maximum |
| Forecaster.SeriesAreConsistent | src/models/forecaster.py:23-24 | one series per retained banner gives a forecaster whose series are date-ordered and within quota |
| Forecaster.SetBanners | src/models/forecaster.py:16-25 | the call fails with a division by zero exactly when fewer than seven days separate the earliest start from today or some forecast day has a zero pool; otherwise it records the date range over all input banners, averages satisfying the weekday relation, the still-running banners in stable quota order, and each one's forecast series |
| Forecaster.GetForecastForBanner | src/models/forecaster.py:93-102 | the four lists have equal length; on a consistent forecaster the call succeeds exactly for a valid Python index, the dates strictly increase, and the value, minimum and maximum lists give that banner's forecasts and repeated quotas, each value within the maximum |
| Forecaster.FreshHasNoForecast | src/models/forecaster.py:7-13 | a newly constructed forecaster holds no forecast for any index |
| Forecaster.ForecastsWithinQuota | src/models/forecaster.py:74-81 | after a successful call on valid banners from non-negative averages, every forecast value lies between 0 and its banner's maximum |

## Left out

- The PyQt views and dialogs (`src/views/`) are not part of this model. Neither are the table-model adapters (`headerData`, `rowCount`, `columnCount`, `data`, `beginResetModel`, `endResetModel`). They only present data. The early `return` in `sort_banners` skips `endResetModel`; this matters only to Qt's view bookkeeping.
- The percentage in the main window (main_wnd.py:441-443) repeats the capped ratio that `Banners.CappedPercent` models.
- The SQLite driver (`src/drivers/advertis_driver.py`) is not part of this model. New banner and showing ids are parameters. Updates and deletes in storage, storage failures, and the random data generator (`gen_rand_data`) are left out.
- `showing_editor.py` is not part of this model. This also leaves out `get_banner_short_data`, `get_showing_short_data` and `clear_showing_editor_data`, which only hand data to it.
- `find_min_banner_date` is the start-date half of `find_min_max_banner_dates`. `Banners.EarliestStart` with the today-plus-100-years sentinel covers it.
- `get_min_date` and `get_max_date` are field reads. `to_showing_short_data` is a field projection.
- The date and date-time string formatting (`date_start_str`, `date_end_str`, `datetime_str`) is Qt library code.
- The system clock: `today` is a parameter. This includes the default argument of `count_showings_for_date`, which Python evaluates once, at import time; every call in the model passes a date.
- Floating point: weekday averages, percentages and the proportional share are exact reals. `round` is round-half-to-even on the exact value, not on a binary float.
- `Dates.AddYears` counts a year 0 in the proleptic Gregorian calendar, while Qt skips it. The two differ only for dates before AD 1.
- Qt's null `QDate()` is day 0 in the fresh states. Nothing reads those dates before the first `set_banners`.
- Partial state after an exception is not modelled: an operation that fails returns an error and no state. In the Python objects, the failed call's completed steps remain, namely:
  - in the analyzer (promotion_analyzer.py:51-53): `_all_banners`, `_min_date` and `_max_date` already replaced, and the index partly filled;
  - in the forecaster (forecaster.py:17-21): `_forecast_showings` already cleared and `_banners`, `_min_date` and `_max_date` already replaced, so a later `get_forecast_for_banner` raises;
  - some averages already divided;
  - forecasts written for earlier days.
- Sharing of the registry's list with the analyzer and the forecaster is not modelled; every component works on a value.
- Forecaster.SumMinShowingsForDate: the contract bounds the pool and says when it is 0, rather than restating it as a sum. The concatenation and permutation lemmas relate it to its parts.
