/**
 * `combineDailyBalancesWithPreviews` of src/lib/utils/dailyBalanceWithPreview.ts:
 * overlays the month's preview transactions on the server's daily balances
 * and then fills the gaps between consecutive dates. Each imperative step is
 * a method proved equal to a specification function; the properties of those
 * functions are in module BalanceMergeFacts.
 *
 * Date strings are the ISO forms of `Date` triples, so the string-keyed Maps
 * of the source are keyed by triples here (`Format.IsoInjective` makes the
 * two the same), while every string comparison of the source is kept as a
 * comparison of ISO strings.
 */
module BalanceMerge {
  import opened Wrappers
  import opened Dates
  import opened Strings
  import opened Format
  import opened Seqs
  import opened Sorting
  import opened Transactions

  /** `a.localeCompare(b)` on two date strings, taken as code-unit order (they hold only digits and '-'). */
  function IsoOrder(a: Date, b: Date): int {
    LexCompare(FormatISODate(a), FormatISODate(b))
  }

  function BalanceOrder(a: DailyBalance, b: DailyBalance): int {
    IsoOrder(a.date, b.date)
  }

  function DatesOf(bs: seq<DailyBalance>): (ds: seq<Date>)
    ensures |ds| == |bs| && forall i :: 0 <= i < |bs| ==> ds[i] == bs[i].date
  {
    seq(|bs|, i requires 0 <= i < |bs| => bs[i].date)
  }

  /** The dates of a list are those of its prefix, then its last one's. */
  lemma DatesOfLast(bs: seq<DailyBalance>)
    requires bs != []
    ensures DatesOf(bs) == DatesOf(bs[..|bs| - 1]) + [bs[|bs| - 1].date]
  {
  }

  function PreviewDates(ps: seq<Preview>): (ds: seq<Date>)
    ensures |ds| == |ps| && forall i :: 0 <= i < |ps| ==> ds[i] == ps[i].transaction_date
  {
    seq(|ps|, i requires 0 <= i < |ps| => ps[i].transaction_date)
  }

  // ---------------------------------------------------------------------
  // Specification functions

  /** The Map filled by `set(balance.date, { ...balance })`: a later balance for a date replaces an earlier one. */
  function BackendMap(backend: seq<DailyBalance>): (m: map<Date, DailyBalance>)
    ensures forall d :: d in m <==> d in DatesOf(backend)
    ensures forall d :: d in m ==> m[d].date == d
  {
    if backend == [] then map[]
    else
      var n := |backend| - 1;
      assert DatesOf(backend) == DatesOf(backend[..n]) + [backend[n].date];
      BackendMap(backend[..n])[backend[n].date := backend[n]]
  }

  /** The previews of one date, in input order. */
  function PreviewsOn(ps: seq<Preview>, d: Date): seq<Preview> {
    Filter(ps, (p: Preview) => p.transaction_date == d)
  }

  /** `previewsByDate`: every date that has previews, with its previews in input order. */
  function GroupsOf(ps: seq<Preview>): map<Date, seq<Preview>> {
    map d | d in PreviewDates(ps) :: PreviewsOn(ps, d)
  }

  function Lookup(groups: map<Date, seq<Preview>>, d: Date): seq<Preview> {
    if d in groups then groups[d] else []
  }

  /** A day's preview impact, the `reduce` from 0 adding +amount for income and -amount for expense. */
  function Impact(ps: seq<Preview>): int {
    if ps == [] then 0
    else Impact(ps[..|ps| - 1]) + Signed(ps[|ps| - 1].kind, ps[|ps| - 1].amount)
  }

  /** The bounds `formatISODate(new Date(year, month - 1, 1))` and `formatISODate(new Date(year, month, 0))`. */
  function MonthStartISO(year: int, month: int): string {
    FormatISODate(JsLocalDate(year, month - 1, 1))
  }

  function MonthEndISO(year: int, month: int): string {
    FormatISODate(JsLocalDate(year, month, 0))
  }

  /** The string test `startISO <= transaction_date <= endISO`. */
  predicate InMonth(p: Preview, year: int, month: int) {
    LexCompare(FormatISODate(p.transaction_date), MonthStartISO(year, month)) >= 0
    && LexCompare(FormatISODate(p.transaction_date), MonthEndISO(year, month)) <= 0
  }

  function MonthPreviews(previews: seq<Preview>, year: int, month: int): seq<Preview> {
    Filter(previews, (p: Preview) => InMonth(p, year, month))
  }

  /** The dates of the Map's values, sorted by date: `sortedBalances`. */
  function SortedBalances(backend: seq<DailyBalance>): seq<DailyBalance> {
    var combined := BackendMap(backend);
    var keys := Dedup(DatesOf(backend));
    SortBy(seq(|keys|, i requires 0 <= i < |keys| => combined[keys[i]]), BalanceOrder)
  }

  /** `sortedDates`: the Set of the sorted balances' dates and then the preview dates, sorted. */
  function SortedDates(backend: seq<DailyBalance>, monthPreviews: seq<Preview>): seq<Date> {
    SortBy(Dedup(DatesOf(SortedBalances(backend)) + Dedup(PreviewDates(monthPreviews))), IsoOrder)
  }

  /** The status of a merged day: the classifier when preferences are given, the fallback otherwise. */
  function StatusFor(balance: int, preferences: Option<UserPreferences>, fallback: Option<BalanceStatus>,
                     classify: (int, UserPreferences) -> BalanceStatus): Option<BalanceStatus> {
    if preferences.Some? then Some(classify(balance, preferences.value)) else fallback
  }

  /** The entry the first pass makes for date d after the entries prev. */
  function Entry(d: Date, prev: seq<DailyBalance>, combined: map<Date, DailyBalance>, groups: map<Date, seq<Preview>>,
                 preferences: Option<UserPreferences>, classify: (int, UserPreferences) -> BalanceStatus): (e: DailyBalance)
    ensures e.date == d
  {
    var impact := Impact(Lookup(groups, d));
    if d in combined then
      var balance := combined[d].balance + impact;
      DailyBalance(d, balance, StatusFor(balance, preferences, combined[d].status, classify))
    else
      var balance := if prev == [] then impact else prev[|prev| - 1].balance + impact;
      DailyBalance(d, balance, StatusFor(balance, preferences, None, classify))
  }

  /** The first pass: one entry per sorted date, reading the entry made for the previous date. */
  function Overlay(ds: seq<Date>, combined: map<Date, DailyBalance>, groups: map<Date, seq<Preview>>,
                   preferences: Option<UserPreferences>, classify: (int, UserPreferences) -> BalanceStatus): (r: seq<DailyBalance>)
    ensures |r| == |ds|
    ensures forall i :: 0 <= i < |ds| ==> r[i].date == ds[i]
  {
    if ds == [] then []
    else
      var prev := Overlay(ds[..|ds| - 1], combined, groups, preferences, classify);
      prev + [Entry(ds[|ds| - 1], prev, combined, groups, preferences, classify)]
  }

  /** The entries inserted after prev: the next n days, each with prev's balance and status. */
  function Gap(prev: DailyBalance, n: nat): (g: seq<DailyBalance>) {
    seq(n, k requires 0 <= k < n => DailyBalance(AddDays(prev.date, k + 1), prev.balance, prev.status))
  }

  /** Whole days from a to b, the floored millisecond difference of one time zone. */
  function DaysDiff(a: Date, b: Date): int {
    Ordinal(b) - Ordinal(a)
  }

  /** The second pass: the missing days before each entry are inserted as copies of the entry before them. */
  function FillGaps(r: seq<DailyBalance>): seq<DailyBalance> {
    if |r| <= 1 then r
    else
      var init := r[..|r| - 1];
      var diff := DaysDiff(init[|init| - 1].date, r[|r| - 1].date);
      FillGaps(init) + Gap(init[|init| - 1], if diff > 1 then diff - 1 else 0) + [r[|r| - 1]]
  }

  /** Everything after the month filter: the first pass over the sorted dates, then the gap fill. */
  function Merge(backend: seq<DailyBalance>, monthPreviews: seq<Preview>,
                 preferences: Option<UserPreferences>, classify: (int, UserPreferences) -> BalanceStatus): seq<DailyBalance> {
    FillGaps(Overlay(SortedDates(backend, monthPreviews), BackendMap(backend), GroupsOf(monthPreviews), preferences, classify))
  }

  /** The whole function. */
  function Combine(backend: seq<DailyBalance>, previews: seq<Preview>, year: int, month: int,
                   preferences: Option<UserPreferences>, classify: (int, UserPreferences) -> BalanceStatus): seq<DailyBalance> {
    Merge(backend, MonthPreviews(previews, year, month), preferences, classify)
  }

  // ---------------------------------------------------------------------
  // The imperative steps

  /** The `forEach` filling `combinedBalances`; keys is the Map's key order. */
  method IndexBalances(backend: seq<DailyBalance>) returns (combined: map<Date, DailyBalance>, keys: seq<Date>)
    ensures combined == BackendMap(backend)
    ensures keys == Dedup(DatesOf(backend))
  {
    combined := map[];
    keys := [];
    var i := 0;
    while i < |backend|
      invariant 0 <= i <= |backend|
      invariant combined == BackendMap(backend[..i])
      invariant keys == Dedup(DatesOf(backend[..i]))
    {
      var balance := backend[i];
      IndexNext(backend, i);
      if balance.date !in combined {
        keys := keys + [balance.date];
      }
      combined := combined[balance.date := balance];
      i := i + 1;
    }
    assert backend[..i] == backend;
  }

  /** One step of `IndexBalances`: the map and the key order after `backend[i]`. */
  lemma IndexNext(backend: seq<DailyBalance>, i: nat)
    requires i < |backend|
    ensures BackendMap(backend[..i + 1]) == BackendMap(backend[..i])[backend[i].date := backend[i]]
    ensures Dedup(DatesOf(backend[..i + 1]))
      == if backend[i].date in BackendMap(backend[..i]) then Dedup(DatesOf(backend[..i]))
         else Dedup(DatesOf(backend[..i])) + [backend[i].date]
  {
    assert backend[..i + 1][..i] == backend[..i];
    DatesOfLast(backend[..i + 1]);
    DedupSnoc(DatesOf(backend[..i]), backend[i].date);
  }

  /** The `forEach` filling `previewsByDate`; keys is the Map's key order. */
  method GroupByDate(monthPreviews: seq<Preview>) returns (groups: map<Date, seq<Preview>>, keys: seq<Date>)
    ensures groups == GroupsOf(monthPreviews)
    ensures keys == Dedup(PreviewDates(monthPreviews))
  {
    groups := map[];
    keys := [];
    var i := 0;
    while i < |monthPreviews|
      invariant 0 <= i <= |monthPreviews|
      invariant groups == GroupsOf(monthPreviews[..i])
      invariant keys == Dedup(PreviewDates(monthPreviews[..i]))
    {
      GroupStep(monthPreviews, i);
      groups, keys := AddToGroup(groups, keys, monthPreviews[i]);
      i := i + 1;
    }
    assert monthPreviews[..i] == monthPreviews;
  }

  /** One call of the `forEach` callback: a new date gets an empty list and a key, then the preview is pushed. */
  method AddToGroup(groups: map<Date, seq<Preview>>, keys: seq<Date>, preview: Preview)
    returns (groups': map<Date, seq<Preview>>, keys': seq<Date>)
    ensures groups' == groups[preview.transaction_date := Lookup(groups, preview.transaction_date) + [preview]]
    ensures keys' == if preview.transaction_date in groups then keys else keys + [preview.transaction_date]
  {
    var dateStr := preview.transaction_date;
    groups', keys' := groups, keys;
    if dateStr !in groups' {
      groups' := groups'[dateStr := []];
      keys' := keys' + [dateStr];
    }
    groups' := groups'[dateStr := groups'[dateStr] + [preview]];
  }

  lemma GroupStep(ps: seq<Preview>, i: nat)
    requires i < |ps|
    ensures GroupsOf(ps[..i + 1]) == GroupsOf(ps[..i])[ps[i].transaction_date := Lookup(GroupsOf(ps[..i]), ps[i].transaction_date) + [ps[i]]]
    ensures Dedup(PreviewDates(ps[..i + 1])) == if ps[i].transaction_date in GroupsOf(ps[..i]) then Dedup(PreviewDates(ps[..i]))
                                                else Dedup(PreviewDates(ps[..i])) + [ps[i].transaction_date]
  {
    assert ps[..i + 1] == ps[..i] + [ps[i]];
    assert PreviewDates(ps[..i + 1]) == PreviewDates(ps[..i]) + [ps[i].transaction_date];
    DedupSnoc(PreviewDates(ps[..i]), ps[i].transaction_date);
    GroupsOfSnoc(ps[..i], ps[i]);
  }

  lemma GroupsOfSnoc(ps: seq<Preview>, p: Preview)
    ensures GroupsOf(ps + [p]) == GroupsOf(ps)[p.transaction_date := Lookup(GroupsOf(ps), p.transaction_date) + [p]]
  {
    var d := p.transaction_date;
    assert PreviewDates(ps + [p]) == PreviewDates(ps) + [d];
    forall e
      ensures PreviewsOn(ps + [p], e) == PreviewsOn(ps, e) + (if e == d then [p] else [])
    {
      FilterAppend(ps, [p], (q: Preview) => q.transaction_date == e);
    }
    forall e | e !in PreviewDates(ps)
      ensures PreviewsOn(ps, e) == []
    {
      FilterNone(ps, (q: Preview) => q.transaction_date == e);
    }
    var l, r := GroupsOf(ps + [p]), GroupsOf(ps)[d := Lookup(GroupsOf(ps), d) + [p]];
    assert forall e :: e in l <==> e in r;
    forall e | e in l
      ensures l[e] == r[e]
    {
    }
  }

  /** The first loop, building `result` by `push`. */
  method OverlayDates(sortedDates: seq<Date>, combined: map<Date, DailyBalance>, groups: map<Date, seq<Preview>>,
                      preferences: Option<UserPreferences>, classify: (int, UserPreferences) -> BalanceStatus)
    returns (result: seq<DailyBalance>)
    ensures result == Overlay(sortedDates, combined, groups, preferences, classify)
  {
    result := [];
    var i := 0;
    while i < |sortedDates|
      invariant 0 <= i <= |sortedDates|
      invariant result == Overlay(sortedDates[..i], combined, groups, preferences, classify)
    {
      var entry := DayEntry(sortedDates[i], result, combined, groups, preferences, classify);
      OverlayStep(sortedDates, i, combined, groups, preferences, classify);
      result := result + [entry];
      i := i + 1;
    }
    assert sortedDates[..i] == sortedDates;
  }

  /** The body of the first loop for one date; prev is the result so far. */
  method DayEntry(dateStr: Date, prev: seq<DailyBalance>, combined: map<Date, DailyBalance>, groups: map<Date, seq<Preview>>,
                  preferences: Option<UserPreferences>, classify: (int, UserPreferences) -> BalanceStatus)
    returns (entry: DailyBalance)
    ensures entry == Entry(dateStr, prev, combined, groups, preferences, classify)
  {
    var dayPreviews := Lookup(groups, dateStr);
    var previewImpact := Impact(dayPreviews);
    var balance: int;
    var status: Option<BalanceStatus>;
    if dateStr in combined {
      var existing := combined[dateStr];
      balance := existing.balance + previewImpact;
      status := if preferences.Some? then Some(classify(balance, preferences.value)) else existing.status;
    } else {
      if |prev| == 0 {
        balance := previewImpact;
      } else {
        balance := prev[|prev| - 1].balance + previewImpact;
      }
      status := if preferences.Some? then Some(classify(balance, preferences.value)) else None;
    }
    entry := DailyBalance(dateStr, balance, status);
  }

  lemma OverlayStep(ds: seq<Date>, i: nat, combined: map<Date, DailyBalance>, groups: map<Date, seq<Preview>>,
                    preferences: Option<UserPreferences>, classify: (int, UserPreferences) -> BalanceStatus)
    requires i < |ds|
    ensures var prev := Overlay(ds[..i], combined, groups, preferences, classify);
      Overlay(ds[..i + 1], combined, groups, preferences, classify) == prev + [Entry(ds[i], prev, combined, groups, preferences, classify)]
  {
    assert ds[..i + 1][..i] == ds[..i];
  }

  /** The inner loop building `insertions` for one gap. */
  method MissingDays(prev: DailyBalance, daysDiff: int) returns (insertions: seq<DailyBalance>)
    requires daysDiff > 1
    ensures insertions == Gap(prev, daysDiff - 1)
  {
    insertions := [];
    var day := 1;
    while day < daysDiff
      invariant 1 <= day <= daysDiff
      invariant insertions == Gap(prev, day - 1)
    {
      insertions := insertions + [DailyBalance(AddDays(prev.date, day), prev.balance, prev.status)];
      assert insertions == Gap(prev, day);
      day := day + 1;
    }
  }

  /** The gap fill of one more entry: the previous fill, the days missing before the entry, the entry. */
  lemma FillGapsNext(r: seq<DailyBalance>, k: nat)
    requires 1 <= k < |r|
    ensures FillGaps(r[..k + 1])
      == FillGaps(r[..k]) + Gap(r[k - 1], if DaysDiff(r[k - 1].date, r[k].date) > 1 then DaysDiff(r[k - 1].date, r[k].date) - 1 else 0) + [r[k]]
  {
    assert r[..k + 1][..k] == r[..k];
  }

  lemma SpliceShift(a: seq<DailyBalance>, g: seq<DailyBalance>, r: seq<DailyBalance>, k: nat)
    requires k < |r|
    ensures a + g + r[k..] == (a + g + [r[k]]) + r[k + 1..]
  {
    assert r[k..] == [r[k]] + r[k + 1..];
  }

  /** One pass of the second loop: the missing days spliced in before index i, and the index after them. */
  method SpliceGap(result: seq<DailyBalance>, i: nat) returns (next: seq<DailyBalance>, j: nat)
    requires 1 <= i < |result|
    ensures var d := DaysDiff(result[i - 1].date, result[i].date);
      var g := Gap(result[i - 1], if d > 1 then d - 1 else 0);
      next == result[..i] + g + result[i..] && j == i + |g| + 1
  {
    var prev := result[i - 1];
    var current := result[i];
    var daysDiff := DaysDiff(prev.date, current.date);
    next, j := result, i;
    if daysDiff > 1 {
      var missing := MissingDays(prev, daysDiff);
      next := result[..i] + missing + result[i..];
      j := i + |missing|;
    } else {
      assert result[..i] + [] + result[i..] == result;
    }
    j := j + 1;
  }

  /** One splice extends the gap fill of the first k entries by entry k, and the index lands after it. */
  lemma FillGapsStep(firstPass: seq<DailyBalance>, k: nat, done: seq<DailyBalance>,
                     before: seq<DailyBalance>, after: seq<DailyBalance>, j: nat)
    returns (done': seq<DailyBalance>)
    requires 1 <= k < |firstPass|
    requires done == FillGaps(firstPass[..k]) && before == done + firstPass[k..]
    requires |done| >= 1 && done[|done| - 1] == firstPass[k - 1]
    requires var i := |done|; var d := DaysDiff(before[i - 1].date, before[i].date);
      var g := Gap(before[i - 1], if d > 1 then d - 1 else 0);
      after == before[..i] + g + before[i..] && j == i + |g| + 1
    ensures done' == FillGaps(firstPass[..k + 1]) && after == done' + firstPass[k + 1..]
    ensures j == |done'| && done'[j - 1] == firstPass[k]
  {
    var i := |done|;
    assert before[i - 1] == firstPass[k - 1] && before[i] == firstPass[k];
    assert before[..i] == done && before[i..] == firstPass[k..];
    var d := DaysDiff(firstPass[k - 1].date, firstPass[k].date);
    var g := Gap(firstPass[k - 1], if d > 1 then d - 1 else 0);
    FillGapsNext(firstPass, k);
    SpliceShift(done, g, firstPass, k);
    done' := done + g + [firstPass[k]];
  }

  /** The second loop: splices each gap in place and skips the index past it. */
  method FillGapsInPlace(firstPass: seq<DailyBalance>) returns (result: seq<DailyBalance>)
    ensures result == FillGaps(firstPass)
  {
    result := firstPass;
    if |firstPass| == 0 {
      return;
    }
    ghost var k := 1;
    ghost var done := [firstPass[0]];
    assert firstPass[..1] == done;
    var i := 1;
    while i < |result|
      invariant 1 <= k <= |firstPass|
      invariant done == FillGaps(firstPass[..k])
      invariant result == done + firstPass[k..]
      invariant i == |done| && done[i - 1] == firstPass[k - 1]
      decreases |firstPass| - k
    {
      ghost var before := result;
      result, i := SpliceGap(result, i);
      done := FillGapsStep(firstPass, k, done, before, result, i);
      k := k + 1;
    }
    assert firstPass[..k] == firstPass;
  }

  /** `combineDailyBalancesWithPreviews`. */
  method CombineDailyBalancesWithPreviews(backendBalances: seq<DailyBalance>, previewTransactions: seq<Preview>,
                                          year: int, month: int, preferences: Option<UserPreferences>,
                                          classify: (int, UserPreferences) -> BalanceStatus)
    returns (result: seq<DailyBalance>)
    ensures result == Combine(backendBalances, previewTransactions, year, month, preferences, classify)
  {
    var combinedBalances, balanceKeys := IndexBalances(backendBalances);
    var monthPreviews := MonthPreviews(previewTransactions, year, month);
    var sortedBalances := SortBy(seq(|balanceKeys|, i requires 0 <= i < |balanceKeys| => combinedBalances[balanceKeys[i]]), BalanceOrder);
    var previewsByDate, previewKeys := GroupByDate(monthPreviews);
    var allDates := Dedup(DatesOf(sortedBalances) + previewKeys);
    var sortedDates := SortBy(allDates, IsoOrder);
    var firstPass := OverlayDates(sortedDates, combinedBalances, previewsByDate, preferences, classify);
    result := FillGapsInPlace(firstPass);
  }
}
