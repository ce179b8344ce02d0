/**
 * `useTransactionsWithPreview` (src/hooks/useTransactionsWithPreview.ts): the
 * real transactions followed by the drafts shown as transactions, sorted so
 * that today's entries come first, then future ones in ascending date order,
 * then past ones in descending date order. `new Date()` is the parameter
 * `today`; dates are compared as days, which is what comparing the midnight
 * times does.
 */
module MergedView {
  import opened Wrappers
  import opened Dates
  import opened Seqs
  import opened Sorting
  import opened Transactions

  /** Milliseconds in a day: the comparator returns differences of midnight times. */
  const MsPerDay: int := 86400000

  /** A draft shown as a transaction: its string id in the id slot, user 0, no category. */
  function AsTransaction(p: Preview): (t: Transaction)
    ensures t.id == PreviewId(p.id) && t.user_id == 0 && t.category_id == None
    ensures t.description == p.description && t.amount == p.amount
    ensures t.kind == p.kind && t.transaction_date == p.transaction_date
  {
    Transaction(PreviewId(p.id), 0, p.description, p.amount, p.kind, p.transaction_date, None)
  }

  function AsTransactions(ps: seq<Preview>): (ts: seq<Transaction>)
    ensures |ts| == |ps| && forall i :: 0 <= i < |ps| ==> ts[i] == AsTransaction(ps[i])
  {
    seq(|ps|, i requires 0 <= i < |ps| => AsTransaction(ps[i]))
  }

  /** `[...(realTransactions || []), ...previews.map(...)]`. */
  function Unsorted(fetched: Option<seq<Transaction>>, previews: seq<Preview>): seq<Transaction> {
    (if fetched.Some? then fetched.value else []) + AsTransactions(previews)
  }

  /** The comparator handed to `sort`. */
  function CompareView(today: Date, a: Transaction, b: Transaction): int {
    var oa, ob, ot := Ordinal(a.transaction_date), Ordinal(b.transaction_date), Ordinal(today);
    var aIsToday, bIsToday := oa == ot, ob == ot;
    if aIsToday && !bIsToday then -1
    else if !aIsToday && bIsToday then 1
    else
      var aIsFuture, bIsFuture := oa > ot, ob > ot;
      if aIsFuture && bIsFuture then (oa - ob) * MsPerDay
      else if !aIsFuture && !bIsFuture then (ob - oa) * MsPerDay
      else if aIsFuture then -1
      else 1
  }

  function ViewOrder(today: Date): (Transaction, Transaction) -> int {
    (a, b) => CompareView(today, a, b)
  }

  /** `allTransactions`. */
  function AllTransactions(fetched: Option<seq<Transaction>>, previews: seq<Preview>, today: Date): seq<Transaction> {
    SortBy(Unsorted(fetched, previews), ViewOrder(today))
  }

  /**
   * The order the view promises for an entry a placed before an entry b:
   * nothing precedes a today entry but another today entry, nothing past
   * precedes a future entry, future entries ascend and past entries descend.
   */
  predicate InViewOrder(today: Date, a: Transaction, b: Transaction) {
    var oa, ob, ot := Ordinal(a.transaction_date), Ordinal(b.transaction_date), Ordinal(today);
    (ob == ot ==> oa == ot)
    && (oa < ot ==> ob < ot)
    && (oa > ot && ob > ot ==> oa <= ob)
    && (oa < ot && ob < ot ==> oa >= ob)
  }

  // ---------------------------------------------------------------------
  // The comparator

  /** "Not after" under the comparator is exactly the view's order. */
  lemma CompareViewMeaning(today: Date, a: Transaction, b: Transaction)
    ensures CompareView(today, a, b) <= 0 <==> InViewOrder(today, a, b)
  {
  }

  /** The comparator calls two entries equal exactly when they fall on the same day. */
  lemma CompareViewZero(today: Date, a: Transaction, b: Transaction)
    ensures CompareView(today, a, b) == 0 <==> Ordinal(a.transaction_date) == Ordinal(b.transaction_date)
  {
  }

  /** The comparator is antisymmetric and transitive, as `sort` asks. */
  lemma ViewOrderConsistent(today: Date)
    ensures Consistent(ViewOrder(today))
  {
    var cmp := ViewOrder(today);
    forall a, b
      ensures cmp(a, b) < 0 <==> cmp(b, a) > 0
    {
    }
    forall a, b, c | cmp(a, b) <= 0 && cmp(b, c) <= 0
      ensures cmp(a, c) <= 0
    {
      CompareViewMeaning(today, a, b);
      CompareViewMeaning(today, b, c);
      CompareViewMeaning(today, a, c);
    }
  }

  // ---------------------------------------------------------------------
  // The merged list

  /** The view holds every real transaction and one entry per draft, nothing else. */
  lemma AllTransactionsContents(fetched: Option<seq<Transaction>>, previews: seq<Preview>, today: Date)
    ensures multiset(AllTransactions(fetched, previews, today))
      == multiset(if fetched.Some? then fetched.value else []) + multiset(AsTransactions(previews))
    ensures |AllTransactions(fetched, previews, today)| == (if fetched.Some? then |fetched.value| else 0) + |previews|
  {
    SortByPermutation(Unsorted(fetched, previews), ViewOrder(today));
  }

  /** Any two entries of the view stand in the view's order. */
  lemma AllTransactionsOrdered(fetched: Option<seq<Transaction>>, previews: seq<Preview>, today: Date, i: nat, j: nat)
    requires i < j < |AllTransactions(fetched, previews, today)|
    ensures InViewOrder(today, AllTransactions(fetched, previews, today)[i], AllTransactions(fetched, previews, today)[j])
  {
    var v := AllTransactions(fetched, previews, today);
    ViewOrderConsistent(today);
    SortBySorted(Unsorted(fetched, previews), ViewOrder(today));
    assert ViewOrder(today)(v[i], v[j]) <= 0;
    CompareViewMeaning(today, v[i], v[j]);
  }

  /** The entries of one day. */
  function SameDay(s: seq<Transaction>, t: Transaction, today: Date): seq<Transaction> {
    Ties(s, t, ViewOrder(today))
  }

  /**
   * Entries of one day keep their input order: the day's real transactions,
   * in order, then the day's drafts, in order.
   */
  lemma AllTransactionsSameDay(fetched: Option<seq<Transaction>>, previews: seq<Preview>, today: Date, t: Transaction)
    ensures SameDay(AllTransactions(fetched, previews, today), t, today)
      == SameDay(if fetched.Some? then fetched.value else [], t, today) + SameDay(AsTransactions(previews), t, today)
  {
    ViewOrderConsistent(today);
    SortByStable(Unsorted(fetched, previews), t, ViewOrder(today));
    FilterAppend(if fetched.Some? then fetched.value else [], AsTransactions(previews), TiesWith(t, ViewOrder(today)));
  }

  /** An entry belongs to the day of t exactly when its date is that day. */
  lemma SameDayMember(s: seq<Transaction>, t: Transaction, today: Date, e: Transaction)
    ensures e in SameDay(s, t, today) <==> e in s && Ordinal(e.transaction_date) == Ordinal(t.transaction_date)
  {
    FilterMember(s, TiesWith(t, ViewOrder(today)), e);
    CompareViewZero(today, e, t);
  }
}
