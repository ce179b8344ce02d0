/**
 * The list logic of src/app/dashboard/transactions/page.tsx: the month
 * filter on the date strings, the grouping of the filtered list by month
 * (newest month first), and the form's choice between updating and
 * creating. Each transaction's date string is the ISO form of its date.
 */
module TransactionsPage {
  import opened Wrappers
  import opened Strings
  import opened Dates
  import opened Format
  import opened Seqs
  import opened Sorting
  import opened Transactions

  /** `s.substring(0, 7)`. */
  function Prefix7(s: string): string {
    if |s| <= 7 then s else s[..7]
  }

  /** The "YYYY-MM" a date string starts with. */
  function TxMonth(t: Transaction): string {
    Prefix7(FormatISODate(t.transaction_date))
  }

  function InMonth(filterMonth: string): Transaction -> bool {
    t => filterMonth == "" || TxMonth(t) == filterMonth
  }

  /** `transactions`: undefined while the query has no data. */
  function FilterByMonth(all: Option<seq<Transaction>>, filterMonth: string): Option<seq<Transaction>> {
    match all
    case None => None
    case Some(s) => Some(Filter(s, InMonth(filterMonth)))
  }

  /** The initial `filterMonth`: the current month's key. */
  function DefaultFilter(today: Date): string {
    MonthKey(today.year, today.month)
  }

  /** The key a transaction is grouped under: year and two-digit month of its date. */
  function GroupKey(t: Transaction): string {
    MonthKey(t.transaction_date.year, t.transaction_date.month)
  }

  /** The test of having key k under the key function f. */
  function HasKeyBy(f: Transaction -> string, k: string): Transaction -> bool {
    t => f(t) == k
  }

  function HasKey(k: string): Transaction -> bool {
    HasKeyBy(GroupKey, k)
  }

  /** `b.localeCompare(a)`: newest key first. */
  function Descending(): (string, string) -> int {
    (a, b) => LexCompare(b, a)
  }

  datatype MonthGroup = MonthGroup(monthKey: string, transactions: seq<Transaction>)

  /**
   * What the grouping promises about s: keys strictly descending, each
   * group the transactions of its key in input order and never empty, and
   * a group for every transaction.
   */
  ghost predicate GroupsOf(groups: seq<MonthGroup>, s: seq<Transaction>) {
    (forall i, j :: 0 <= i < j < |groups| ==> LexLess(groups[j].monthKey, groups[i].monthKey))
    && (forall i :: 0 <= i < |groups| ==>
          groups[i].transactions == Filter(s, HasKey(groups[i].monthKey)) && groups[i].transactions != [])
    && (forall t :: t in s ==> exists i :: 0 <= i < |groups| && groups[i].monthKey == GroupKey(t))
  }

  /**
   * The dictionary after the `forEach` has seen the first i transactions of
   * s, grouped under the key function f: its keys in insertion order, and
   * for each key the transactions having it, in order.
   */
  ghost predicate Collected(f: Transaction -> string, s: seq<Transaction>, i: nat, keys: seq<string>, m: map<string, seq<Transaction>>)
    requires i <= |s|
  {
    Distinct(keys)
    && (forall k :: k in m <==> k in keys)
    && (forall k :: k in m ==> m[k] == Filter(s[..i], HasKeyBy(f, k)) && m[k] != [])
    && (forall j :: 0 <= j < i ==> f(s[j]) in m)
  }

  /** The `forEach` that fills the dictionary under the key function f. */
  method FillGroups(f: Transaction -> string, s: seq<Transaction>) returns (keys: seq<string>, m: map<string, seq<Transaction>>)
    ensures Distinct(keys)
    ensures forall k :: k in m <==> k in keys
    ensures forall k :: k in m ==> m[k] == Filter(s, HasKeyBy(f, k)) && m[k] != []
    ensures forall t :: t in s ==> f(t) in m
  {
    keys, m := [], map[];
    var i := 0;
    while i < |s|
      invariant 0 <= i <= |s|
      invariant Collected(f, s, i, keys, m)
    {
      var key := f(s[i]);
      var group := if key in m then m[key] else [];  // `if (!groups[key]) groups[key] = []`
      ghost var keys0, m0 := keys, m;
      if key !in m {
        keys := keys + [key];
      }
      m := m[key := group + [s[i]]];
      CollectStep(f, s, i, keys0, m0, keys, m);
      i := i + 1;
    }
    CollectedAll(f, s, keys, m);
  }

  /** One more transaction: its key is added if new, and its group grows by it. */
  lemma CollectStep(f: Transaction -> string, s: seq<Transaction>, i: nat, keys: seq<string>, m: map<string, seq<Transaction>>,
                    keys': seq<string>, m': map<string, seq<Transaction>>)
    requires i < |s| && Collected(f, s, i, keys, m)
    requires keys' == if f(s[i]) in m then keys else keys + [f(s[i])]
    requires m' == m[f(s[i]) := (if f(s[i]) in m then m[f(s[i])] else []) + [s[i]]]
    ensures Collected(f, s, i + 1, keys', m')
  {
    var key, t, p := f(s[i]), s[i], s[..i];
    assert s[..i + 1] == p + [t];
    forall k | k in m'
      ensures m'[k] == Filter(s[..i + 1], HasKeyBy(f, k)) && m'[k] != []
    {
      FilterAppend(p, [t], HasKeyBy(f, k));
      assert [t][1..] == [];
      if k == key {
        assert Filter([t], HasKeyBy(f, k)) == [t];
        if key !in m {
          FilterNone(p, HasKeyBy(f, k));
        }
      } else {
        assert Filter([t], HasKeyBy(f, k)) == [];
        assert m'[k] == m[k];
      }
    }
  }

  /** After the whole list, the dictionary holds every transaction under its key. */
  lemma CollectedAll(f: Transaction -> string, s: seq<Transaction>, keys: seq<string>, m: map<string, seq<Transaction>>)
    requires Collected(f, s, |s|, keys, m)
    ensures Distinct(keys)
    ensures forall k :: k in m <==> k in keys
    ensures forall k :: k in m ==> m[k] == Filter(s, HasKeyBy(f, k)) && m[k] != []
    ensures forall t :: t in s ==> f(t) in m
  {
    assert s[..|s|] == s;
    forall t | t in s
      ensures f(t) in m
    {
      var j :| 0 <= j < |s| && s[j] == t;
    }
  }

  /** `Object.entries(groups).sort(...).map(...)`. */
  function SortedGroups(keys: seq<string>, m: map<string, seq<Transaction>>): seq<MonthGroup> {
    var sorted := SortBy(keys, Descending());
    seq(|sorted|, j requires 0 <= j < |sorted| => MonthGroup(sorted[j], if sorted[j] in m then m[sorted[j]] else []))
  }

  /** `groupTransactionsByMonth`. */
  method GroupTransactionsByMonth(txs: Option<seq<Transaction>>) returns (groups: seq<MonthGroup>)
    ensures txs.None? ==> groups == []
    ensures txs.Some? ==> GroupsOf(groups, txs.value)
  {
    if txs.None? {
      return [];
    }
    var keys, m := FillGroups(GroupKey, txs.value);
    groups := SortedGroups(keys, m);
    SortedGroupsSpec(txs.value, keys, m);
  }

  /** The sorted keys are the keys, strictly descending. */
  lemma SortedKeys(keys: seq<string>)
    requires Distinct(keys)
    ensures var sorted := SortBy(keys, Descending());
      (forall k :: k in sorted <==> k in keys)
      && forall a, b :: 0 <= a < b < |sorted| ==> LexLess(sorted[b], sorted[a])
  {
    DescendingConsistent();
    var sorted := SortBy(keys, Descending());
    SortByPermutation(keys, Descending());
    SortBySorted(keys, Descending());
    DistinctPermutation(keys, sorted);
    forall k
      ensures k in sorted <==> k in keys
    {
      assert k in sorted <==> k in multiset(sorted);
      assert k in keys <==> k in multiset(keys);
    }
    forall a, b | 0 <= a < b < |sorted|
      ensures LexLess(sorted[b], sorted[a])
    {
      assert Descending()(sorted[a], sorted[b]) <= 0;
      LexCompareZero(sorted[b], sorted[a]);
    }
  }

  lemma SortedGroupsSpec(s: seq<Transaction>, keys: seq<string>, m: map<string, seq<Transaction>>)
    requires Distinct(keys)
    requires forall k :: k in m <==> k in keys
    requires forall k :: k in m ==> m[k] == Filter(s, HasKey(k)) && m[k] != []
    requires forall t :: t in s ==> GroupKey(t) in m
    ensures GroupsOf(SortedGroups(keys, m), s)
  {
    var groups := SortedGroups(keys, m);
    var sorted := SortBy(keys, Descending());
    SortedKeys(keys);
    assert forall j :: 0 <= j < |groups| ==> groups[j].monthKey == sorted[j] && groups[j].transactions == m[sorted[j]];
    forall t | t in s
      ensures exists j :: 0 <= j < |groups| && groups[j].monthKey == GroupKey(t)
    {
      var k :| 0 <= k < |sorted| && sorted[k] == GroupKey(t);
      assert groups[k].monthKey == GroupKey(t);
    }
  }

  /** `handleSubmit`'s request. */
  datatype Request = Update(id: int, data: TransactionCreate) | Create(data: TransactionCreate)

  /** `if (editingId)`: an id of 0 is falsy and also creates. */
  function SubmitRequest(editingId: Option<int>, formData: TransactionCreate): (r: Request)
    ensures r.Update? <==> editingId.Some? && editingId.value != 0
    ensures r.Update? ==> r.id == editingId.value
    ensures r.data == formData
  {
    if editingId.Some? && editingId.value != 0 then Update(editingId.value, formData) else Create(formData)
  }

  /** The empty form: an expense dated today, no category. */
  function EmptyForm(today: Date): TransactionCreate {
    TransactionCreate("", 0, Expense, today, None)
  }

  /** The form's state. */
  class TransactionForm {
    var formData: TransactionCreate
    var editingId: Option<int>
    var showForm: bool
    var error: string

    constructor (today: Date)
      ensures formData == EmptyForm(today) && editingId == None && !showForm && error == ""
    {
      formData := EmptyForm(today);
      editingId := None;
      showForm := false;
      error := "";
    }

    /**
     * Submit: send the request; on success reset and close the form, on
     * failure keep it and show the message. The server's answer and its
     * message are parameters.
     */
    method HandleSubmit(today: Date, succeeded: bool, message: string) returns (sent: Request)
      modifies this
      ensures sent == SubmitRequest(old(editingId), old(formData))
      ensures succeeded ==> formData == EmptyForm(today) && editingId == None && !showForm && error == ""
      ensures !succeeded ==> formData == old(formData) && editingId == old(editingId) && showForm == old(showForm) && error == message
    {
      error := "";
      if editingId.Some? && editingId.value != 0 {
        sent := Update(editingId.value, formData);
      } else {
        sent := Create(formData);
      }
      if succeeded {
        formData := EmptyForm(today);
        editingId := None;
        showForm := false;
      } else {
        error := message;
      }
    }
  }

  // ---------------------------------------------------------------------
  // The month filter

  /** The filter keeps exactly the transactions of the chosen month string; an empty filter keeps all. */
  lemma FilterByMonthMember(s: seq<Transaction>, filterMonth: string, t: Transaction)
    ensures t in FilterByMonth(Some(s), filterMonth).value <==> t in s && (filterMonth == "" || TxMonth(t) == filterMonth)
  {
    FilterMember(s, InMonth(filterMonth), t);
  }

  lemma EmptyFilterKeepsAll(all: Option<seq<Transaction>>)
    ensures FilterByMonth(all, "") == all
  {
    if all.Some? {
      FilterAll(all.value, InMonth(""));
    }
  }

  /** For a valid date of a four-digit year, the first seven characters of its string are its month key. */
  lemma TxMonthIsKey(t: Transaction)
    requires Valid(t.transaction_date) && 1000 <= t.transaction_date.year <= 9999
    ensures TxMonth(t) == GroupKey(t)
  {
    var d := t.transaction_date;
    FourDigits(d.year);
    Pad2Shape(d.month);
    var key := MonthKey(d.year, d.month);
    assert |key| == 7;
    assert FormatISODate(d) == key + "-" + Pad2(d.day);
    assert FormatISODate(d)[..7] == key;
  }

  /**
   * With the default filter, a transaction dated in a four-digit year is
   * kept exactly when it falls in the current month.
   */
  lemma DefaultFilterKeepsCurrentMonth(today: Date, t: Transaction)
    requires 1000 <= today.year <= 9999
    requires Valid(t.transaction_date) && 1000 <= t.transaction_date.year <= 9999
    ensures InMonth(DefaultFilter(today))(t)
        <==> t.transaction_date.year == today.year && t.transaction_date.month == today.month
  {
    TxMonthIsKey(t);
    var d := t.transaction_date;
    MonthKeyCompare(d.year, d.month, today.year, today.month);
    LexCompareZero(MonthKey(d.year, d.month), MonthKey(today.year, today.month));
  }

  // ---------------------------------------------------------------------
  // The grouping

  lemma DescendingConsistent()
    ensures Consistent(Descending())
  {
    var cmp := Descending();
    forall a, b
      ensures cmp(a, b) < 0 <==> cmp(b, a) > 0
    {
      LexCompareAntisymmetric(a, b);
    }
    forall a, b, c | cmp(a, b) <= 0 && cmp(b, c) <= 0
      ensures cmp(a, c) <= 0
    {
      LexCompareTransitive(c, b, a);
    }
  }

  /** Each transaction is in exactly one group. */
  lemma OneGroupEach(groups: seq<MonthGroup>, s: seq<Transaction>, t: Transaction)
    requires GroupsOf(groups, s) && t in s
    ensures exists i :: 0 <= i < |groups| && t in groups[i].transactions
    ensures forall i, j :: 0 <= i < |groups| && 0 <= j < |groups| && t in groups[i].transactions && t in groups[j].transactions ==> i == j
  {
    var i :| 0 <= i < |groups| && groups[i].monthKey == GroupKey(t);
    FilterMember(s, HasKey(groups[i].monthKey), t);
    forall a, b | 0 <= a < |groups| && 0 <= b < |groups| && t in groups[a].transactions && t in groups[b].transactions
      ensures a == b
    {
      FilterMember(s, HasKey(groups[a].monthKey), t);
      FilterMember(s, HasKey(groups[b].monthKey), t);
      if a < b {
        LexCompareZero(groups[b].monthKey, groups[a].monthKey);
      } else if b < a {
        LexCompareZero(groups[a].monthKey, groups[b].monthKey);
      }
    }
  }

  function SumSizes(groups: seq<MonthGroup>): nat {
    if groups == [] then 0 else |groups[0].transactions| + SumSizes(groups[1..])
  }

  function Keys(groups: seq<MonthGroup>): (ks: seq<string>)
    ensures |ks| == |groups| && forall i :: 0 <= i < |groups| ==> ks[i] == groups[i].monthKey
  {
    seq(|groups|, i requires 0 <= i < |groups| => groups[i].monthKey)
  }

  /** The number of transactions of s whose key is among ks. */
  function CountIn(ks: seq<string>, s: seq<Transaction>): nat {
    if ks == [] then 0 else |Filter(s, HasKey(ks[0]))| + CountIn(ks[1..], s)
  }

  function Occurrences(ks: seq<string>, k: string): nat {
    if ks == [] then 0 else (if ks[0] == k then 1 else 0) + Occurrences(ks[1..], k)
  }

  lemma {:induction false} OccurrencesDistinct(ks: seq<string>, k: string)
    requires Distinct(ks)
    ensures Occurrences(ks, k) == if k in ks then 1 else 0
    decreases |ks|
  {
    if ks != [] {
      OccurrencesDistinct(ks[1..], k);
      assert ks == [ks[0]] + ks[1..];
      if ks[0] == k {
        assert k !in ks[1..];
      }
    }
  }

  lemma {:induction false} CountInCons(ks: seq<string>, x: Transaction, r: seq<Transaction>)
    ensures CountIn(ks, [x] + r) == Occurrences(ks, GroupKey(x)) + CountIn(ks, r)
    decreases |ks|
  {
    if ks != [] {
      CountInCons(ks[1..], x, r);
      assert ([x] + r)[1..] == r;
    }
  }

  /** Over distinct keys that cover every transaction, the group sizes add up to the whole list. */
  lemma {:induction false} CountInAll(ks: seq<string>, s: seq<Transaction>)
    requires Distinct(ks) && forall t :: t in s ==> GroupKey(t) in ks
    ensures CountIn(ks, s) == |s|
    decreases |s|
  {
    if s == [] {
      CountInEmpty(ks);
    } else {
      assert s == [s[0]] + s[1..];
      CountInCons(ks, s[0], s[1..]);
      OccurrencesDistinct(ks, GroupKey(s[0]));
      CountInAll(ks, s[1..]);
    }
  }

  lemma {:induction false} CountInEmpty(ks: seq<string>)
    ensures CountIn(ks, []) == 0
    decreases |ks|
  {
    if ks != [] {
      CountInEmpty(ks[1..]);
    }
  }

  lemma {:induction false} SumSizesIsCount(groups: seq<MonthGroup>, s: seq<Transaction>)
    requires forall i :: 0 <= i < |groups| ==> groups[i].transactions == Filter(s, HasKey(groups[i].monthKey))
    ensures SumSizes(groups) == CountIn(Keys(groups), s)
    decreases |groups|
  {
    if groups != [] {
      SumSizesIsCount(groups[1..], s);
      assert Keys(groups)[1..] == Keys(groups[1..]);
    }
  }

  /** The group sizes add up to the number of transactions grouped. */
  lemma GroupSizesSum(groups: seq<MonthGroup>, s: seq<Transaction>)
    requires GroupsOf(groups, s)
    ensures SumSizes(groups) == |s|
  {
    var ks := Keys(groups);
    assert Distinct(ks) by {
      forall i, j | 0 <= i < j < |ks|
        ensures ks[i] != ks[j]
      {
        LexCompareZero(groups[j].monthKey, groups[i].monthKey);
      }
    }
    forall t | t in s
      ensures GroupKey(t) in ks
    {
      var i :| 0 <= i < |groups| && groups[i].monthKey == GroupKey(t);
      assert ks[i] == GroupKey(t);
    }
    SumSizesIsCount(groups, s);
    CountInAll(ks, s);
  }
}
