/**
 * What `combineDailyBalancesWithPreviews` guarantees, proved about the
 * specification functions of module BalanceMerge. Dates are assumed to be
 * real calendar days with four-digit years, the range on which comparing ISO
 * strings is comparing dates.
 */
module BalanceMergeFacts {
  import opened Wrappers
  import opened Dates
  import opened Strings
  import opened Format
  import opened Seqs
  import opened Sorting
  import opened Transactions
  import opened BalanceMerge

  predicate GoodDate(d: Date) {
    Valid(d) && 1000 <= d.year <= 9999
  }

  predicate GoodInputs(backend: seq<DailyBalance>, previews: seq<Preview>) {
    (forall i :: 0 <= i < |backend| ==> GoodDate(backend[i].date))
    && (forall i :: 0 <= i < |previews| ==> GoodDate(previews[i].transaction_date))
  }

  predicate Ascending(ds: seq<Date>) {
    forall i, j :: 0 <= i < j < |ds| ==> Ordinal(ds[i]) < Ordinal(ds[j])
  }

  /** Entries on real days whose ordinals strictly increase. */
  predicate ValidAscending(r: seq<DailyBalance>) {
    (forall i :: 0 <= i < |r| ==> Valid(r[i].date))
    && forall i, j :: 0 <= i < j < |r| ==> Ordinal(r[i].date) < Ordinal(r[j].date)
  }

  // ---------------------------------------------------------------------
  // The date order

  lemma IsoOrderConsistent()
    ensures Consistent(IsoOrder)
  {
    forall a: Date, b: Date
      ensures IsoOrder(a, b) < 0 <==> IsoOrder(b, a) > 0
    {
      LexCompareAntisymmetric(FormatISODate(a), FormatISODate(b));
    }
    forall a: Date, b: Date, c: Date | IsoOrder(a, b) <= 0 && IsoOrder(b, c) <= 0
      ensures IsoOrder(a, c) <= 0
    {
      LexCompareTransitive(FormatISODate(a), FormatISODate(b), FormatISODate(c));
    }
  }

  lemma IsoOrderZero(a: Date, b: Date)
    ensures IsoOrder(a, b) == 0 <==> a == b
  {
    LexCompareZero(FormatISODate(a), FormatISODate(b));
    if FormatISODate(a) == FormatISODate(b) {
      IsoInjective(a, b);
    }
  }

  /** On real days with four-digit years, string order is day order. */
  lemma IsoOrderOrdinal(a: Date, b: Date)
    requires GoodDate(a) && GoodDate(b)
    ensures IsoOrder(a, b) < 0 <==> Ordinal(a) < Ordinal(b)
  {
    IsoCompare(a, b);
    OrdinalOrder(a, b);
  }

  // ---------------------------------------------------------------------
  // The month filter

  lemma MonthBounds(year: int, month: int)
    requires 1000 <= year <= 9999 && 1 <= month <= 12
    ensures JsLocalDate(year, month - 1, 1) == FirstOfMonth(year, month)
    ensures JsLocalDate(year, month, 0) == LastOfMonth(year, month)
  {
    JsDateOfValid(year, month, 1);
    MonthEnd(year, month);
  }

  lemma MonthEnd(year: int, month: Month)
    requires 1000 <= year <= 9999
    ensures JsLocalDate(year, month, 0) == LastOfMonth(year, month)
  {
    var next := NextMonthYear(year, month);
    assert JsLocalDate(year, month, 0) == AddDays(FirstOfMonth(next.0, next.1), -1) by {
      if month == 12 {
        assert Date(year + month / 12, month % 12 + 1, 1) == FirstOfMonth(year + 1, 1);
      } else {
        assert Date(year + month / 12, month % 12 + 1, 1) == FirstOfMonth(year, month + 1);
      }
    }
    assert AddDays(FirstOfMonth(next.0, next.1), -1) == PrevDay(FirstOfMonth(next.0, next.1));
    MonthBoundaries(next.0, next.1);
    assert PrevMonthYear(next.0, next.1) == (year, month);
  }

  /**
   * The string bounds select exactly the previews of that month; previews
   * dated outside it are ignored.
   */
  lemma MonthFilterExact(previews: seq<Preview>, year: int, month: int, p: Preview)
    requires 1000 <= year <= 9999 && 1 <= month <= 12
    requires GoodDate(p.transaction_date)
    ensures p in MonthPreviews(previews, year, month)
        <==> p in previews && p.transaction_date.year == year && p.transaction_date.month == month
  {
    FilterMember(previews, (q: Preview) => InMonth(q, year, month), p);
    InMonthExact(p, year, month);
  }

  lemma InMonthExact(p: Preview, year: int, month: int)
    requires 1000 <= year <= 9999 && 1 <= month <= 12
    requires GoodDate(p.transaction_date)
    ensures InMonth(p, year, month) <==> p.transaction_date.year == year && p.transaction_date.month == month
  {
    MonthBounds(year, month);
    var d := p.transaction_date;
    IsoCompare(d, FirstOfMonth(year, month));
    IsoCompare(d, LastOfMonth(year, month));
    DateInMonth(d, year, month);
  }

  lemma DateInMonth(d: Date, year: int, month: Month)
    requires Valid(d)
    ensures DateCompare(d, FirstOfMonth(year, month)) >= 0 && DateCompare(d, LastOfMonth(year, month)) <= 0
        <==> d.year == year && d.month == month
  {
  }

  // ---------------------------------------------------------------------
  // Preview impact

  lemma {:induction false} ImpactAppend(a: seq<Preview>, b: seq<Preview>)
    ensures Impact(a + b) == Impact(a) + Impact(b)
    decreases |b|
  {
    if b == [] {
      assert a + b == a;
    } else {
      var n := |b| - 1;
      ImpactAppend(a, b[..n]);
      assert (a + b)[..|a + b| - 1] == a + b[..n];
    }
  }

  /** A day's impact does not depend on the order of its previews. */
  lemma {:induction false} ImpactPermutation(a: seq<Preview>, b: seq<Preview>)
    requires multiset(a) == multiset(b)
    ensures Impact(a) == Impact(b)
    decreases |a|
  {
    if a != [] {
      var n := |a| - 1;
      var x := a[n];
      assert a == a[..n] + [x];
      assert x in multiset(b);
      var k :| 0 <= k < |b| && b[k] == x;
      assert b == b[..k] + [x] + b[k + 1..];
      var rest := b[..k] + b[k + 1..];
      assert multiset(rest) == multiset(b) - multiset{x};
      ImpactPermutation(a[..n], rest);
      ImpactAppend(b[..k] + [x], b[k + 1..]);
      ImpactAppend(b[..k], b[k + 1..]);
      assert (b[..k] + [x])[..k] == b[..k];
    }
  }

  /** The previews looked up for a date are that date's previews, in input order. */
  lemma LookupGroups(ps: seq<Preview>, d: Date)
    ensures Lookup(GroupsOf(ps), d) == PreviewsOn(ps, d)
  {
    if d !in PreviewDates(ps) {
      FilterNone(ps, (p: Preview) => p.transaction_date == d);
    }
  }

  // ---------------------------------------------------------------------
  // The sorted dates

  /** A later balance for a date wins. */
  lemma {:induction false} BackendMapLast(backend: seq<DailyBalance>, i: nat)
    requires i < |backend|
    requires forall j :: i < j < |backend| ==> backend[j].date != backend[i].date
    ensures BackendMap(backend)[backend[i].date] == backend[i]
    decreases |backend|
  {
    var n := |backend| - 1;
    if i < n {
      BackendMapLast(backend[..n], i);
    }
  }

  lemma BackendMapFrom(backend: seq<DailyBalance>, d: Date)
    requires d in BackendMap(backend)
    ensures BackendMap(backend)[d] in backend
  {
    if backend != [] {
      var n := |backend| - 1;
      if d != backend[n].date {
        BackendMapFrom(backend[..n], d);
      }
    }
  }

  lemma SortedBalancesDates(backend: seq<DailyBalance>)
    ensures forall d :: d in DatesOf(SortedBalances(backend)) <==> d in DatesOf(backend)
  {
    var combined := BackendMap(backend);
    var keys := Dedup(DatesOf(backend));
    var values := seq(|keys|, i requires 0 <= i < |keys| => combined[keys[i]]);
    var sorted := SortBy(values, BalanceOrder);
    assert SortedBalances(backend) == sorted;
    SortByPermutation(values, BalanceOrder);
    forall d
      ensures d in DatesOf(sorted) <==> d in DatesOf(backend)
    {
      if d in DatesOf(sorted) {
        var i :| 0 <= i < |sorted| && DatesOf(sorted)[i] == d;
        assert sorted[i] in multiset(values);
        var k :| 0 <= k < |values| && values[k] == sorted[i];
        assert keys[k] == d;
      }
      if d in DatesOf(backend) {
        assert d in keys;
        var k :| 0 <= k < |keys| && keys[k] == d;
        assert values[k] in multiset(sorted);
        var i :| 0 <= i < |sorted| && sorted[i] == values[k];
        assert DatesOf(sorted)[i] == d;
      }
    }
  }

  /** The sorted dates are the backend dates and the month's preview dates, each once. */
  lemma SortedDatesMembers(backend: seq<DailyBalance>, mp: seq<Preview>)
    ensures forall d :: d in SortedDates(backend, mp) <==> d in DatesOf(backend) || d in PreviewDates(mp)
    ensures Distinct(SortedDates(backend, mp))
  {
    SortedBalancesDates(backend);
    var all := Dedup(DatesOf(SortedBalances(backend)) + Dedup(PreviewDates(mp)));
    SortByPermutation(all, IsoOrder);
    DistinctPermutation(all, SortBy(all, IsoOrder));
    SortByMembers(all, IsoOrder);
  }

  lemma SortedDatesGood(backend: seq<DailyBalance>, mp: seq<Preview>, i: nat)
    requires GoodInputs(backend, mp) && i < |SortedDates(backend, mp)|
    ensures GoodDate(SortedDates(backend, mp)[i])
  {
    var d := SortedDates(backend, mp)[i];
    SortedDatesMembers(backend, mp);
    assert d in SortedDates(backend, mp);
    if d in DatesOf(backend) {
      var k :| 0 <= k < |backend| && DatesOf(backend)[k] == d;
    } else {
      var k :| 0 <= k < |mp| && PreviewDates(mp)[k] == d;
    }
  }

  lemma SortedDatesSorted(backend: seq<DailyBalance>, mp: seq<Preview>)
    ensures Sorted(SortedDates(backend, mp), IsoOrder)
  {
    IsoOrderConsistent();
    SortBySorted(Dedup(DatesOf(SortedBalances(backend)) + Dedup(PreviewDates(mp))), IsoOrder);
  }

  /** The sorted dates strictly increase. */
  lemma SortedDatesAscending(backend: seq<DailyBalance>, mp: seq<Preview>)
    requires GoodInputs(backend, mp)
    ensures Ascending(SortedDates(backend, mp))
    ensures forall i :: 0 <= i < |SortedDates(backend, mp)| ==> GoodDate(SortedDates(backend, mp)[i])
  {
    var sd := SortedDates(backend, mp);
    forall i | 0 <= i < |sd|
      ensures GoodDate(sd[i])
    {
      SortedDatesGood(backend, mp, i);
    }
    SortedDatesSorted(backend, mp);
    SortedDatesMembers(backend, mp);
    forall i, j | 0 <= i < j < |sd|
      ensures Ordinal(sd[i]) < Ordinal(sd[j])
    {
      assert IsoOrder(sd[i], sd[j]) <= 0 && sd[i] != sd[j];
      IsoOrderZero(sd[i], sd[j]);
      IsoOrderOrdinal(sd[i], sd[j]);
    }
  }

  // ---------------------------------------------------------------------
  // The first pass

  lemma {:induction false} OverlayPrefix(ds: seq<Date>, k: nat, combined: map<Date, DailyBalance>, groups: map<Date, seq<Preview>>,
                                         preferences: Option<UserPreferences>, classify: (int, UserPreferences) -> BalanceStatus)
    requires k <= |ds|
    ensures Overlay(ds[..k], combined, groups, preferences, classify) == Overlay(ds, combined, groups, preferences, classify)[..k]
    decreases |ds|
  {
    if k < |ds| {
      var n := |ds| - 1;
      OverlayPrefix(ds[..n], k, combined, groups, preferences, classify);
      assert ds[..n][..k] == ds[..k];
    } else {
      assert ds[..k] == ds;
    }
  }

  /**
   * The rule for each date of the first pass: a backend date gets its own
   * balance plus that day's impact; any other date gets the impact alone when
   * it is first, and the previous entry's balance plus the impact otherwise.
   */
  lemma OverlayAt(ds: seq<Date>, i: nat, combined: map<Date, DailyBalance>, groups: map<Date, seq<Preview>>,
                  preferences: Option<UserPreferences>, classify: (int, UserPreferences) -> BalanceStatus)
    requires i < |ds|
    ensures var ov := Overlay(ds, combined, groups, preferences, classify);
      var impact := Impact(Lookup(groups, ds[i]));
      (ds[i] in combined ==>
        ov[i].balance == combined[ds[i]].balance + impact
        && ov[i].status == StatusFor(ov[i].balance, preferences, combined[ds[i]].status, classify))
      && (ds[i] !in combined ==>
        ov[i].balance == (if i == 0 then impact else ov[i - 1].balance + impact)
        && ov[i].status == StatusFor(ov[i].balance, preferences, None, classify))
  {
    OverlayPrefix(ds, i + 1, combined, groups, preferences, classify);
    OverlayPrefix(ds, i, combined, groups, preferences, classify);
    assert ds[..i + 1][..i] == ds[..i];
    assert ds[..i + 1][i] == ds[i];
  }

  // ---------------------------------------------------------------------
  // The gap fill

  lemma GapAt(prev: DailyBalance, n: nat, k: nat)
    requires Valid(prev.date) && k < n
    ensures Gap(prev, n)[k] == DailyBalance(AddDays(prev.date, k + 1), prev.balance, prev.status)
    ensures Valid(Gap(prev, n)[k].date) && Ordinal(Gap(prev, n)[k].date) == Ordinal(prev.date) + k + 1
  {
    AddDaysOrdinal(prev.date, k + 1);
  }

  /** After the gap fill the days run one by one from the first entry's day to the last one's. */
  lemma {:induction false} FillGapsShape(r: seq<DailyBalance>)
    requires |r| >= 1 && ValidAscending(r)
    ensures var f := FillGaps(r);
      |f| == Ordinal(r[|r| - 1].date) - Ordinal(r[0].date) + 1
      && f[0] == r[0] && f[|f| - 1] == r[|r| - 1]
      && forall j :: 0 <= j < |f| ==> Valid(f[j].date) && Ordinal(f[j].date) == Ordinal(r[0].date) + j
    decreases |r|
  {
    if |r| > 1 {
      var init := r[..|r| - 1];
      FillGapsShape(init);
      var a := FillGaps(init);
      var prev, cur := init[|init| - 1], r[|r| - 1];
      var diff := DaysDiff(prev.date, cur.date);
      var g := Gap(prev, if diff > 1 then diff - 1 else 0);
      assert FillGaps(r) == a + g + [cur];
      forall j | 0 <= j < |FillGaps(r)|
        ensures Valid(FillGaps(r)[j].date) && Ordinal(FillGaps(r)[j].date) == Ordinal(r[0].date) + j
      {
        if |a| <= j < |a| + |g| {
          GapAt(prev, |g|, j - |a|);
        }
      }
    }
  }

  lemma AscendingInit(r: seq<DailyBalance>)
    requires |r| > 0 && ValidAscending(r)
    ensures ValidAscending(r[..|r| - 1])
  {
  }

  /** One step of the gap fill: the filled prefix, the missing days, the last entry. */
  lemma FillGapsSplit(r: seq<DailyBalance>)
    requires |r| > 1 && ValidAscending(r)
    ensures var init := r[..|r| - 1];
      ValidAscending(init)
      && Ordinal(r[|r| - 1].date) - Ordinal(r[|r| - 2].date) >= 1
      && FillGaps(r) == FillGaps(init) + Gap(r[|r| - 2], Ordinal(r[|r| - 1].date) - Ordinal(r[|r| - 2].date) - 1) + [r[|r| - 1]]
      && |FillGaps(init)| == Ordinal(r[|r| - 2].date) - Ordinal(r[0].date) + 1
  {
    var init := r[..|r| - 1];
    FillGapsShape(init);
  }

  /** Each entry of the first pass sits at its day's place. */
  lemma {:induction false} FillGapsAt(r: seq<DailyBalance>, i: nat)
    requires |r| >= 1 && ValidAscending(r) && i < |r|
    ensures 0 <= Ordinal(r[i].date) - Ordinal(r[0].date) < |FillGaps(r)|
    ensures FillGaps(r)[Ordinal(r[i].date) - Ordinal(r[0].date)] == r[i]
    decreases |r|
  {
    FillGapsShape(r);
    if |r| > 1 {
      FillGapsSplit(r);
      var init := r[..|r| - 1];
      if i < |init| {
        FillGapsAt(init, i);
        assert init[i] == r[i] && init[0] == r[0];
      }
    }
  }

  /** Adding an entry leaves the filled prefix in place. */
  lemma FillGapsPrefix(r: seq<DailyBalance>, j: nat)
    requires |r| > 1 && ValidAscending(r) && j < |FillGaps(r[..|r| - 1])|
    ensures |FillGaps(r[..|r| - 1])| < |FillGaps(r)| && FillGaps(r)[j] == FillGaps(r[..|r| - 1])[j]
  {
    FillGapsSplit(r);
  }

  /** The day before the last entry's place holds the entry before it or a copy of it. */
  lemma FillGapsBeforeLast(r: seq<DailyBalance>)
    requires |r| > 1 && ValidAscending(r)
    ensures var k := Ordinal(r[|r| - 1].date) - Ordinal(r[0].date);
      0 < k < |FillGaps(r)|
      && FillGaps(r)[k - 1].balance == r[|r| - 2].balance && FillGaps(r)[k - 1].status == r[|r| - 2].status
  {
    FillGapsSplit(r);
    var init := r[..|r| - 1];
    var a := FillGaps(init);
    var prev := r[|r| - 2];
    var g := Gap(prev, Ordinal(r[|r| - 1].date) - Ordinal(prev.date) - 1);
    var k := Ordinal(r[|r| - 1].date) - Ordinal(r[0].date);
    assert k == |a| + |g|;
    if |g| > 0 {
      GapAt(prev, |g|, |g| - 1);
      assert FillGaps(r)[k - 1] == g[|g| - 1];
    } else {
      FillGapsShape(init);
      assert a[|a| - 1] == prev;
      assert FillGaps(r)[k - 1] == a[|a| - 1];
    }
  }

  /** The gap fill of a prefix of the list is a prefix of the gap fill of the list. */
  lemma {:induction false} FillGapsPrefixOf(r: seq<DailyBalance>, m: nat)
    requires 1 <= m <= |r|
    ensures |FillGaps(r[..m])| <= |FillGaps(r)| && FillGaps(r)[..|FillGaps(r[..m])|] == FillGaps(r[..m])
    decreases |r|
  {
    if m == |r| {
      assert r[..m] == r;
    } else {
      var init := r[..|r| - 1];
      FillGapsPrefixOf(init, m);
      assert init[..m] == r[..m];
    }
  }

  /** The day before an entry's place (after the first) has the balance and status of the entry before it. */
  lemma FillGapsBefore(r: seq<DailyBalance>, i: nat)
    requires |r| >= 1 && ValidAscending(r) && 0 < i < |r|
    ensures var k := Ordinal(r[i].date) - Ordinal(r[0].date);
      0 < k < |FillGaps(r)|
      && FillGaps(r)[k - 1].balance == r[i - 1].balance && FillGaps(r)[k - 1].status == r[i - 1].status
  {
    var s := r[..i + 1];
    var k := Ordinal(r[i].date) - Ordinal(r[0].date);
    AscendingPrefix(r, i);
    FillGapsBeforeLast(s);
    assert s[|s| - 1] == r[i] && s[|s| - 2] == r[i - 1];
    var c := FillGaps(s)[k - 1];
    assert c.balance == r[i - 1].balance && c.status == r[i - 1].status;
    FillGapsPrefixOf(r, i + 1);
    PrefixAt(FillGaps(r), FillGaps(s), k - 1);
  }

  /** The list up to and including entry i is ascending, and shares its entries i - 1, i and 0. */
  lemma AscendingPrefix(r: seq<DailyBalance>, i: nat)
    requires ValidAscending(r) && 0 < i < |r|
    ensures var s := r[..i + 1];
      ValidAscending(s) && |s| == i + 1 && s[i] == r[i] && s[i - 1] == r[i - 1] && s[0] == r[0]
  {
  }

  /** An index into a prefix reads the same entry in the whole. */
  lemma PrefixAt(a: seq<DailyBalance>, b: seq<DailyBalance>, j: int)
    requires |b| <= |a| && a[..|b|] == b && 0 <= j < |b|
    ensures a[j] == b[j]
  {
    assert a[..|b|][j] == a[j];
  }

  /** A day after the filled prefix and before the last entry's day is a copy of the day before it. */
  lemma FillGapsGapDay(r: seq<DailyBalance>, j: nat)
    requires |r| > 1 && ValidAscending(r)
    requires |FillGaps(r[..|r| - 1])| <= j < |FillGaps(r)| && FillGaps(r)[j].date != r[|r| - 1].date
    ensures 0 < j && FillGaps(r)[j].balance == FillGaps(r)[j - 1].balance && FillGaps(r)[j].status == FillGaps(r)[j - 1].status
  {
    FillGapsSplit(r);
    var init := r[..|r| - 1];
    var a := FillGaps(init);
    var prev := r[|r| - 2];
    var g := Gap(prev, Ordinal(r[|r| - 1].date) - Ordinal(prev.date) - 1);
    assert FillGaps(r) == a + g + [r[|r| - 1]];
    assert j < |a| + |g|;
    GapAt(prev, |g|, j - |a|);
    assert FillGaps(r)[j] == g[j - |a|];
    if j > |a| {
      GapAt(prev, |g|, j - |a| - 1);
      assert FillGaps(r)[j - 1] == g[j - |a| - 1];
    } else {
      FillGapsShape(init);
      assert FillGaps(r)[j - 1] == a[|a| - 1];
    }
  }

  /** A day the first pass does not have copies the balance and status of the entry before it. */
  lemma {:induction false} FillGapsCopyAt(r: seq<DailyBalance>, j: nat)
    requires |r| >= 1 && ValidAscending(r)
    requires j < |FillGaps(r)| && FillGaps(r)[j].date !in DatesOf(r)
    ensures 0 < j && FillGaps(r)[j].balance == FillGaps(r)[j - 1].balance && FillGaps(r)[j].status == FillGaps(r)[j - 1].status
    decreases |r|
  {
    if |r| > 1 {
      var init := r[..|r| - 1];
      FillGapsSplit(r);
      DatesOfLast(r);
      if j < |FillGaps(init)| {
        FillGapsPrefix(r, j);
        FillGapsCopyAt(init, j);
        FillGapsPrefix(r, j - 1);
      } else {
        FillGapsGapDay(r, j);
      }
    }
  }

  // ---------------------------------------------------------------------
  // The whole function

  /** The dates the merged list is built from: the backend's and the month previews'. */
  predicate InputDate(backend: seq<DailyBalance>, mp: seq<Preview>, d: Date) {
    d in DatesOf(backend) || d in PreviewDates(mp)
  }

  /** Filtering to the month keeps the inputs on real days. */
  lemma MonthInputsGood(backend: seq<DailyBalance>, previews: seq<Preview>, year: int, month: int)
    requires GoodInputs(backend, previews)
    ensures GoodInputs(backend, MonthPreviews(previews, year, month))
  {
    var mp := MonthPreviews(previews, year, month);
    forall i | 0 <= i < |mp|
      ensures GoodDate(mp[i].transaction_date)
    {
      FilterMember(previews, (p: Preview) => InMonth(p, year, month), mp[i]);
      var k :| 0 <= k < |previews| && previews[k] == mp[i];
    }
  }

  /** The first pass over the sorted dates is a list of real days in increasing order. */
  lemma OverlayAscending(backend: seq<DailyBalance>, mp: seq<Preview>,
                         preferences: Option<UserPreferences>, classify: (int, UserPreferences) -> BalanceStatus)
    requires GoodInputs(backend, mp)
    ensures ValidAscending(Overlay(SortedDates(backend, mp), BackendMap(backend), GroupsOf(mp), preferences, classify))
  {
    SortedDatesAscending(backend, mp);
  }

  /** Where an input date sits among the sorted dates. */
  lemma SortedDatesIndex(backend: seq<DailyBalance>, mp: seq<Preview>, d: Date) returns (i: nat)
    requires InputDate(backend, mp, d)
    ensures i < |SortedDates(backend, mp)| && SortedDates(backend, mp)[i] == d
  {
    SortedDatesMembers(backend, mp);
    i :| 0 <= i < |SortedDates(backend, mp)| && SortedDates(backend, mp)[i] == d;
  }

  lemma FillGapsEmpty(r: seq<DailyBalance>)
    ensures FillGaps(r) == [] <==> r == []
  {
  }

  lemma SortedDatesEmpty(backend: seq<DailyBalance>, mp: seq<Preview>)
    ensures SortedDates(backend, mp) == [] <==> backend == [] && mp == []
  {
    var sd := SortedDates(backend, mp);
    SortedDatesMembers(backend, mp);
    if sd != [] {
      assert sd[0] in sd;
    }
  }

  lemma MergeEmpty(backend: seq<DailyBalance>, mp: seq<Preview>,
                   preferences: Option<UserPreferences>, classify: (int, UserPreferences) -> BalanceStatus)
    ensures Merge(backend, mp, preferences, classify) == [] <==> backend == [] && mp == []
  {
    SortedDatesEmpty(backend, mp);
    FillGapsEmpty(Overlay(SortedDates(backend, mp), BackendMap(backend), GroupsOf(mp), preferences, classify));
  }

  /** The result is empty exactly when there are no backend balances and no previews in the month. */
  lemma CombineEmpty(backend: seq<DailyBalance>, previews: seq<Preview>, year: int, month: int,
                     preferences: Option<UserPreferences>, classify: (int, UserPreferences) -> BalanceStatus)
    ensures Combine(backend, previews, year, month, preferences, classify) == []
        <==> backend == [] && MonthPreviews(previews, year, month) == []
  {
    MergeEmpty(backend, MonthPreviews(previews, year, month), preferences, classify);
  }

  /** Real days, one after the other from the first. */
  predicate Consecutive(f: seq<DailyBalance>) {
    forall j :: 0 <= j < |f| ==> Valid(f[j].date) && Ordinal(f[j].date) == Ordinal(f[0].date) + j
  }

  /** The days of f are exactly the real days from its first to its last. */
  ghost predicate CoversSpan(f: seq<DailyBalance>) {
    f != [] ==> forall d :: d in DatesOf(f) <==> Valid(d) && Ordinal(f[0].date) <= Ordinal(d) <= Ordinal(f[|f| - 1].date)
  }

  /** Every day of the first pass is a day of the gap fill. */
  lemma FillGapsIncludes(r: seq<DailyBalance>, i: nat)
    requires ValidAscending(r) && i < |r|
    ensures r[i].date in DatesOf(FillGaps(r))
  {
    FillGapsAt(r, i);
    var k := Ordinal(r[i].date) - Ordinal(r[0].date);
    assert DatesOf(FillGaps(r))[k] == r[i].date;
  }

  lemma ConsecutiveCovers(f: seq<DailyBalance>)
    requires Consecutive(f)
    ensures CoversSpan(f)
  {
    if f != [] {
      forall d
        ensures d in DatesOf(f) <==> Valid(d) && Ordinal(f[0].date) <= Ordinal(d) <= Ordinal(f[|f| - 1].date)
      {
        if Valid(d) && Ordinal(f[0].date) <= Ordinal(d) <= Ordinal(f[|f| - 1].date) {
          var j := Ordinal(d) - Ordinal(f[0].date);
          OrdinalInjective(f[j].date, d);
          assert DatesOf(f)[j] == d;
        }
      }
    }
  }

  /** The gap fill of an increasing list covers exactly the days from its first to its last. */
  lemma FillGapsSpan(r: seq<DailyBalance>)
    requires |r| >= 1 && ValidAscending(r)
    ensures var f := FillGaps(r);
      f != [] && f[0] == r[0] && f[|f| - 1] == r[|r| - 1]
      && Consecutive(f) && CoversSpan(f)
      && (forall d :: d in DatesOf(r) ==> d in DatesOf(f))
  {
    FillGapsShape(r);
    ConsecutiveCovers(FillGaps(r));
    forall d | d in DatesOf(r)
      ensures d in DatesOf(FillGaps(r))
    {
      var i :| 0 <= i < |r| && DatesOf(r)[i] == d;
      FillGapsIncludes(r, i);
    }
  }

  lemma OverlayDatesOf(ds: seq<Date>, combined: map<Date, DailyBalance>, groups: map<Date, seq<Preview>>,
                        preferences: Option<UserPreferences>, classify: (int, UserPreferences) -> BalanceStatus)
    ensures DatesOf(Overlay(ds, combined, groups, preferences, classify)) == ds
  {
  }

  /** The first and last merged days are input dates, and every input date is a merged day. */
  lemma SpanInputs(backend: seq<DailyBalance>, mp: seq<Preview>,
                   preferences: Option<UserPreferences>, classify: (int, UserPreferences) -> BalanceStatus)
    requires GoodInputs(backend, mp)
    ensures var f := Merge(backend, mp, preferences, classify);
      f != [] ==>
        InputDate(backend, mp, f[0].date) && InputDate(backend, mp, f[|f| - 1].date)
        && (forall d :: InputDate(backend, mp, d) ==> d in DatesOf(f))
  {
    var sd := SortedDates(backend, mp);
    var ov := Overlay(sd, BackendMap(backend), GroupsOf(mp), preferences, classify);
    OverlayDatesOf(sd, BackendMap(backend), GroupsOf(mp), preferences, classify);
    if ov != [] {
      OverlayAscending(backend, mp, preferences, classify);
      FillGapsSpan(ov);
      SortedDatesMembers(backend, mp);
      assert DatesOf(ov)[0] in sd && DatesOf(ov)[|ov| - 1] in sd;
    }
  }

  /**
   * The merged list covers every day from the earliest input date to the
   * latest one, once each and in order, and nothing outside that range.
   */
  lemma MergeSpan(backend: seq<DailyBalance>, mp: seq<Preview>,
                  preferences: Option<UserPreferences>, classify: (int, UserPreferences) -> BalanceStatus)
    requires GoodInputs(backend, mp)
    ensures var f := Merge(backend, mp, preferences, classify);
      Consecutive(f) && CoversSpan(f)
      && (f != [] ==> InputDate(backend, mp, f[0].date) && InputDate(backend, mp, f[|f| - 1].date))
      && (forall d :: InputDate(backend, mp, d) ==> d in DatesOf(f))
  {
    var ov := Overlay(SortedDates(backend, mp), BackendMap(backend), GroupsOf(mp), preferences, classify);
    SpanInputs(backend, mp, preferences, classify);
    if ov != [] {
      OverlayAscending(backend, mp, preferences, classify);
      FillGapsSpan(ov);
    }
  }

  /** An entry of the first pass is the gap fill's entry for its day, right after the entry before it or its copies. */
  lemma FillGapsDay(r: seq<DailyBalance>, i: nat) returns (j: nat)
    requires ValidAscending(r) && i < |r|
    ensures var f := FillGaps(r);
      j < |f| && f[j] == r[i]
      && (i == 0 <==> j == 0)
      && (i > 0 ==> f[j - 1].balance == r[i - 1].balance && f[j - 1].status == r[i - 1].status)
  {
    FillGapsAt(r, i);
    FillGapsShape(r);
    j := Ordinal(r[i].date) - Ordinal(r[0].date);
    if i > 0 {
      FillGapsBefore(r, i);
    }
  }

  /** The entry for a backend date, on any sorted dates, groups and preferences. */
  lemma OverlayBackendDay(ds: seq<Date>, combined: map<Date, DailyBalance>, groups: map<Date, seq<Preview>>,
                          preferences: Option<UserPreferences>, classify: (int, UserPreferences) -> BalanceStatus, i: nat)
    returns (j: nat)
    requires ValidAscending(Overlay(ds, combined, groups, preferences, classify))
    requires i < |ds| && ds[i] in combined
    ensures var f := FillGaps(Overlay(ds, combined, groups, preferences, classify));
      j < |f| && f[j].date == ds[i]
      && f[j].balance == combined[ds[i]].balance + Impact(Lookup(groups, ds[i]))
      && f[j].status == StatusFor(f[j].balance, preferences, combined[ds[i]].status, classify)
  {
    OverlayAt(ds, i, combined, groups, preferences, classify);
    j := FillGapsDay(Overlay(ds, combined, groups, preferences, classify), i);
  }

  /** The entry for a date without a backend balance. */
  lemma OverlayOtherDay(ds: seq<Date>, combined: map<Date, DailyBalance>, groups: map<Date, seq<Preview>>,
                        preferences: Option<UserPreferences>, classify: (int, UserPreferences) -> BalanceStatus, i: nat)
    returns (j: nat)
    requires ValidAscending(Overlay(ds, combined, groups, preferences, classify))
    requires i < |ds| && ds[i] !in combined
    ensures var f := FillGaps(Overlay(ds, combined, groups, preferences, classify));
      var impact := Impact(Lookup(groups, ds[i]));
      j < |f| && f[j].date == ds[i]
      && f[j].balance == (if j == 0 then impact else f[j - 1].balance + impact)
      && f[j].status == StatusFor(f[j].balance, preferences, None, classify)
  {
    OverlayAt(ds, i, combined, groups, preferences, classify);
    j := FillGapsDay(Overlay(ds, combined, groups, preferences, classify), i);
  }

  /**
   * A backend date has an entry with its own balance plus the day's preview
   * impact; its status is the classifier's when preferences are given and
   * its own otherwise. For a date the backend lists twice, the later entry is
   * the one used (BackendMapLast).
   */
  lemma MergeBackendDay(backend: seq<DailyBalance>, mp: seq<Preview>,
                        preferences: Option<UserPreferences>, classify: (int, UserPreferences) -> BalanceStatus, d: Date)
    returns (j: nat)
    requires GoodInputs(backend, mp) && d in DatesOf(backend)
    ensures var f := Merge(backend, mp, preferences, classify);
      j < |f| && f[j].date == d
      && f[j].balance == BackendMap(backend)[d].balance + Impact(PreviewsOn(mp, d))
      && f[j].status == StatusFor(f[j].balance, preferences, BackendMap(backend)[d].status, classify)
  {
    var i := SortedDatesIndex(backend, mp, d);
    OverlayAscending(backend, mp, preferences, classify);
    j := OverlayBackendDay(SortedDates(backend, mp), BackendMap(backend), GroupsOf(mp), preferences, classify, i);
    LookupGroups(mp, d);
  }

  /**
   * A date only the previews have gets the preview impact on top of the day
   * before it (on top of nothing when it is the first day), and the
   * classifier's status when preferences are given, none otherwise.
   */
  lemma MergePreviewDay(backend: seq<DailyBalance>, mp: seq<Preview>,
                        preferences: Option<UserPreferences>, classify: (int, UserPreferences) -> BalanceStatus, d: Date)
    returns (j: nat)
    requires GoodInputs(backend, mp) && d in PreviewDates(mp) && d !in DatesOf(backend)
    ensures var f := Merge(backend, mp, preferences, classify);
      var impact := Impact(PreviewsOn(mp, d));
      j < |f| && f[j].date == d
      && f[j].balance == (if j == 0 then impact else f[j - 1].balance + impact)
      && f[j].status == StatusFor(f[j].balance, preferences, None, classify)
  {
    var i := SortedDatesIndex(backend, mp, d);
    OverlayAscending(backend, mp, preferences, classify);
    assert d !in BackendMap(backend);
    j := OverlayOtherDay(SortedDates(backend, mp), BackendMap(backend), GroupsOf(mp), preferences, classify, i);
    LookupGroups(mp, d);
  }

  /** A day no input has copies the balance and status of the day before it. */
  lemma MergeGapDay(backend: seq<DailyBalance>, mp: seq<Preview>,
                    preferences: Option<UserPreferences>, classify: (int, UserPreferences) -> BalanceStatus, j: nat)
    requires GoodInputs(backend, mp)
    requires var f := Merge(backend, mp, preferences, classify);
      j < |f| && !InputDate(backend, mp, f[j].date)
    ensures var f := Merge(backend, mp, preferences, classify);
      0 < j && f[j].balance == f[j - 1].balance && f[j].status == f[j - 1].status
  {
    var sd := SortedDates(backend, mp);
    var ov := Overlay(sd, BackendMap(backend), GroupsOf(mp), preferences, classify);
    OverlayAscending(backend, mp, preferences, classify);
    OverlayDatesOf(sd, BackendMap(backend), GroupsOf(mp), preferences, classify);
    SortedDatesMembers(backend, mp);
    FillGapsCopyAt(ov, j);
  }

  /** Previews outside the month are ignored: filtering them out first changes nothing. */
  lemma CombineIgnoresOtherMonths(backend: seq<DailyBalance>, previews: seq<Preview>, year: int, month: int,
                                  preferences: Option<UserPreferences>, classify: (int, UserPreferences) -> BalanceStatus)
    ensures Combine(backend, MonthPreviews(previews, year, month), year, month, preferences, classify)
         == Combine(backend, previews, year, month, preferences, classify)
  {
    var p := (q: Preview) => InMonth(q, year, month);
    FilterTwice(previews, p, p, p);
  }
}
