/**
 * `analyzeTransactions` of src/app/dashboard/moneytime/page.tsx: the
 * current month's expenses are put in categories by keywords of their
 * descriptions, the three categories with the largest totals get an insight
 * each by their share of the spending, then the savings rate and unusually
 * large expenses can add one more each. Percentages are compared exactly (a
 * share above p percent is 100 * amount > p * total), so floating-point
 * rounding is not modelled; the insight messages are left out. The current
 * month is the parameter pair `year`, `month` (month from 1).
 */
module MoneyTime {
  import opened Wrappers
  import opened Strings
  import opened Dates
  import opened Seqs
  import opened Sorting
  import opened Transactions

  // ---------------------------------------------------------------------
  // Categories

  /** The keyword groups, in the order they are tried. */
  const Rules: seq<(string, seq<string>)> := [
    ("Transporte", ["uber", "taxi", "transporte", "gasolina", "combustivel"]),
    ("Alimentação", ["mercado", "supermercado", "alimentação", "restaurante", "delivery", "ifood"]),
    ("Assinaturas", ["netflix", "spotify", "disney", "prime", "assinatura"]),
    ("Contas Fixas", ["energia", "agua", "luz", "internet", "aluguel"]),
    ("Saúde", ["farmacia", "remedio", "medico", "saude"])
  ]

  const Other: string := "Outros"

  /** The `if ... else if ...` chain: the name of the first group with a keyword in desc. */
  function FirstRule(desc: string, rules: seq<(string, seq<string>)>): (r: string)
    ensures (forall i :: 0 <= i < |rules| ==> !ContainsAny(desc, rules[i].1)) ==> r == Other
    ensures forall i :: 0 <= i < |rules| && ContainsAny(desc, rules[i].1) && (forall j :: 0 <= j < i ==> !ContainsAny(desc, rules[j].1)) ==> r == rules[i].0
    decreases |rules|
  {
    if rules == [] then Other
    else if ContainsAny(desc, rules[0].1) then rules[0].0
    else FirstRule(desc, rules[1..])
  }

  /** The category of an expense, by its lower-cased description. */
  function CategoryOf(t: Transaction): string {
    FirstRule(Lower(t.description), Rules)
  }

  // The tallying below is stated for any categorizer `cat`; the page's is CategoryOf.

  function InCategory(cat: Transaction -> string, k: string): Transaction -> bool {
    (t: Transaction) => cat(t) == k
  }

  function Categories(s: seq<Transaction>, cat: Transaction -> string): (cs: seq<string>)
    ensures |cs| == |s| && forall i :: 0 <= i < |s| ==> cs[i] == cat(s[i])
  {
    seq(|s|, i requires 0 <= i < |s| => cat(s[i]))
  }

  /** No two keyword groups share a name, and none is called Outros. */
  predicate DistinctNames(rules: seq<(string, seq<string>)>) {
    (forall a :: 0 <= a < |rules| ==> rules[a].0 != Other)
    && forall a, b :: 0 <= a < b < |rules| ==> rules[a].0 != rules[b].0
  }

  /** The page's five groups have distinct names, none of them Outros. */
  lemma RulesDistinct()
    ensures DistinctNames(Rules)
  {
    assert Rules[0].0[0] == 'T' && Rules[1].0[0] == 'A' && Rules[2].0[0] == 'A' && Rules[3].0[0] == 'C' && Rules[4].0[0] == 'S';
    assert Rules[1].0[1] == 'l' && Rules[2].0[1] == 's';
    assert Other[0] == 'O';
  }

  /** The position of the first group with a keyword in desc, or |rules| when there is none. */
  function FirstMatch(desc: string, rules: seq<(string, seq<string>)>): (i: nat)
    ensures i <= |rules|
    ensures forall k :: 0 <= k < i ==> !ContainsAny(desc, rules[k].1)
    ensures i < |rules| ==> ContainsAny(desc, rules[i].1)
    decreases |rules|
  {
    if rules == [] || ContainsAny(desc, rules[0].1) then 0
    else
      var i := FirstMatch(desc, rules[1..]);
      assert forall k :: 1 <= k < i + 1 ==> rules[k] == rules[1..][k - 1];
      1 + i
  }

  /** FirstRule gives the name of the first matching group, or Outros. */
  lemma {:induction false} FirstRuleAt(desc: string, rules: seq<(string, seq<string>)>)
    ensures var i := FirstMatch(desc, rules);
      FirstRule(desc, rules) == if i < |rules| then rules[i].0 else Other
    decreases |rules|
  {
    if rules != [] && !ContainsAny(desc, rules[0].1) {
      FirstRuleAt(desc, rules[1..]);
    }
  }

  /** With distinct names, FirstRule names group j exactly when group j is the first to match. */
  lemma FirstRuleIs(desc: string, rules: seq<(string, seq<string>)>, j: int)
    requires DistinctNames(rules) && 0 <= j < |rules|
    ensures FirstRule(desc, rules) == rules[j].0
        <==> ContainsAny(desc, rules[j].1) && forall k :: 0 <= k < j ==> !ContainsAny(desc, rules[k].1)
  {
    FirstRuleAt(desc, rules);
    var i := FirstMatch(desc, rules);
    if i < |rules| && i != j {
      assert rules[i].0 != rules[j].0 by {
        if i < j {
          assert rules[i].0 != rules[j].0;
        } else {
          assert rules[j].0 != rules[i].0;
        }
      }
    }
  }

  /**
   * The category the page gives the i-th expense: the name of group j (in
   * the order Transporte, Alimentação, Assinaturas, Contas Fixas, Saúde)
   * exactly when group j is the first whose keywords occur in the
   * lower-cased description, and Outros exactly when none of them occurs.
   */
  lemma ExpenseCategory(s: seq<Transaction>, i: int)
    requires 0 <= i < |s|
    ensures var c, d := Categories(s, CategoryOf)[i], Lower(s[i].description);
      && (forall j :: 0 <= j < |Rules| ==>
            (c == Rules[j].0 <==> ContainsAny(d, Rules[j].1) && forall k :: 0 <= k < j ==> !ContainsAny(d, Rules[k].1)))
      && (c == Other <==> forall j :: 0 <= j < |Rules| ==> !ContainsAny(d, Rules[j].1))
  {
    var d := Lower(s[i].description);
    var c := Categories(s, CategoryOf)[i];
    assert c == FirstRule(d, Rules);
    RulesDistinct();
    FirstRuleAt(d, Rules);
    forall j | 0 <= j < |Rules|
      ensures c == Rules[j].0 <==> ContainsAny(d, Rules[j].1) && forall k :: 0 <= k < j ==> !ContainsAny(d, Rules[k].1)
    {
      FirstRuleIs(d, Rules, j);
    }
  }

  /** What `categorySpending[k]` adds up to. */
  function CategoryTotal(s: seq<Transaction>, cat: Transaction -> string, k: string): int {
    SumAmounts(Filter(s, InCategory(cat, k)))
  }

  /** `Object.entries(categorySpending)`: the categories in order of first use, with their totals. */
  function Entries(expenses: seq<Transaction>, cat: Transaction -> string): seq<(string, int)> {
    var keys := Dedup(Categories(expenses, cat));
    seq(|keys|, j requires 0 <= j < |keys| => (keys[j], CategoryTotal(expenses, cat, keys[j])))
  }

  /** `([, a], [, b]) => b - a`: the larger total first. */
  function ByAmountDesc(): ((string, int), (string, int)) -> int {
    (a: (string, int), b: (string, int)) => b.1 - a.1
  }

  function Take3<T>(s: seq<T>): (r: seq<T>)
    ensures |r| == if |s| <= 3 then |s| else 3
    ensures r == s[..|r|]
  {
    if |s| <= 3 then s else s[..3]
  }

  /** `sortedCategories`. */
  function TopCategories(expenses: seq<Transaction>, cat: Transaction -> string): seq<(string, int)> {
    Take3(SortBy(Entries(expenses, cat), ByAmountDesc()))
  }

  // ---------------------------------------------------------------------
  // Insights

  datatype Kind = Warning | Tip | Success

  /** An insight without its message text: its kind, its category and the amount it is about. */
  datatype Insight = Insight(kind: Kind, category: string, amount: Option<int>)

  /**
   * `(amount / total) * 100 > p`, exactly: a negative total flips the
   * comparison, and over a zero total only a positive amount (Infinity)
   * passes, 0 / 0 being NaN.
   */
  predicate ShareAbove(amount: int, total: int, p: int) {
    if total > 0 then 100 * amount > p * total
    else if total < 0 then 100 * amount < p * total
    else amount > 0
  }

  /** The insight of the category at position index among the top three, if any. */
  function CategoryInsight(e: (string, int), index: nat, total: int): (r: Option<Insight>)
    ensures r.Some? ==> r.value.category == e.0 && r.value.amount == Some(e.1)
    ensures (r.Some? && r.value.kind == Warning) <==> ShareAbove(e.1, total, 40)
    ensures (r.Some? && r.value.kind == Tip) <==> !ShareAbove(e.1, total, 40) && ShareAbove(e.1, total, 25)
    ensures (r.Some? && r.value.kind == Success) <==> !ShareAbove(e.1, total, 40) && !ShareAbove(e.1, total, 25) && index == 0
  {
    if ShareAbove(e.1, total, 40) then Some(Insight(Warning, e.0, Some(e.1)))
    else if ShareAbove(e.1, total, 25) then Some(Insight(Tip, e.0, Some(e.1)))
    else if index == 0 then Some(Insight(Success, e.0, Some(e.1)))
    else None
  }

  function OptionSeq<T>(o: Option<T>): (r: seq<T>)
    ensures |r| <= 1 && (o.Some? ==> r == [o.value]) && (o.None? ==> r == [])
  {
    if o.Some? then [o.value] else []
  }

  /** The insights of the first n of the top categories, in order. */
  function CategoryInsights(top: seq<(string, int)>, total: int, n: nat): seq<Insight>
    requires n <= |top|
  {
    if n == 0 then [] else CategoryInsights(top, total, n - 1) + OptionSeq(CategoryInsight(top[n - 1], n - 1, total))
  }

  /**
   * The savings insight: the rate is (income - expenses) / income * 100, and
   * 0 when there is no income; below 10 with income it is a warning, 20 or
   * more a success.
   */
  function SavingsInsight(totalIncome: int, totalExpenses: int): (r: Option<Insight>)
    ensures r.Some? ==> r.value.category == "Economia" && r.value.amount == Some(totalIncome - totalExpenses)
    ensures (r.Some? && r.value.kind == Warning) <==> totalIncome > 0 && 10 * (totalIncome - totalExpenses) < totalIncome
    ensures (r.Some? && r.value.kind == Success) <==> totalIncome > 0 && 5 * (totalIncome - totalExpenses) >= totalIncome
    ensures r.Some? ==> r.value.kind != Tip
  {
    var balance := totalIncome - totalExpenses;
    var below10 := totalIncome > 0 && 100 * balance < 10 * totalIncome;
    var atLeast20 := totalIncome > 0 && 100 * balance >= 20 * totalIncome;
    if below10 then Some(Insight(Warning, "Economia", Some(balance)))
    else if atLeast20 then Some(Insight(Success, "Economia", Some(balance)))
    else None
  }

  /** `Number(t.amount) > avgExpense * 2` with `avgExpense = total / n`, for n > 0. */
  function IsHigh(total: int, n: nat): Transaction -> bool {
    (t: Transaction) => t.amount * n > 2 * total
  }

  /** The high-spending tip: some expense above twice the mean. */
  function HighInsight(expenses: seq<Transaction>, totalExpenses: int): Option<Insight> {
    if |expenses| > 0 && |Filter(expenses, IsHigh(totalExpenses, |expenses|))| > 0 then Some(Insight(Tip, "Gastos Altos", None))
    else None
  }

  function InMonthOf(year: int, month: int): Transaction -> bool {
    (t: Transaction) => t.transaction_date.month == month && t.transaction_date.year == year
  }

  function IsExpense(t: Transaction): bool { t.kind == Expense }

  function IsIncome(t: Transaction): bool { t.kind == Income }

  /** The month's expenses. */
  function MonthExpenses(s: seq<Transaction>, year: int, month: int): seq<Transaction> {
    Filter(Filter(s, InMonthOf(year, month)), IsExpense)
  }

  function MonthIncome(s: seq<Transaction>, year: int, month: int): seq<Transaction> {
    Filter(Filter(s, InMonthOf(year, month)), IsIncome)
  }

  /** What `analyzeTransactions` returns when expenses are put in categories by cat. */
  function AnalysisBy(cat: Transaction -> string, transactions: Option<seq<Transaction>>, year: int, month: int): seq<Insight> {
    if transactions.None? || transactions.value == [] then []
    else
      var expenses := MonthExpenses(transactions.value, year, month);
      var totalExpenses := SumAmounts(expenses);
      var totalIncome := SumAmounts(MonthIncome(transactions.value, year, month));
      var top := TopCategories(expenses, cat);
      CategoryInsights(top, totalExpenses, |top|)
      + OptionSeq(SavingsInsight(totalIncome, totalExpenses))
      + OptionSeq(HighInsight(expenses, totalExpenses))
  }

  /** What `analyzeTransactions` returns. */
  function Analysis(transactions: Option<seq<Transaction>>, year: int, month: int): seq<Insight> {
    AnalysisBy(CategoryOf, transactions, year, month)
  }

  // ---------------------------------------------------------------------
  // The imperative steps

  /** `categorySpending` after the `forEach` has added up the expenses p, one after the other. */
  function Tally(p: seq<Transaction>, cat: Transaction -> string): map<string, int>
    decreases |p|
  {
    if p == [] then map[]
    else
      var m, t := Tally(p[..|p| - 1], cat), p[|p| - 1];
      m[cat(t) := (if cat(t) in m then m[cat(t)] else 0) + t.amount]
  }

  /** The `forEach` over the expenses: the category keys in insertion order, and the totals. */
  method CategorySpending(cat: Transaction -> string, s: seq<Transaction>) returns (keys: seq<string>, m: map<string, int>)
    ensures keys == Dedup(Categories(s, cat))
    ensures forall k :: k in m <==> k in keys
    ensures forall k :: k in m ==> m[k] == CategoryTotal(s, cat, k)
  {
    keys, m := [], map[];
    var i := 0;
    while i < |s|
      invariant 0 <= i <= |s|
      invariant keys == Dedup(Categories(s[..i], cat))
      invariant m == Tally(s[..i], cat)
    {
      var category := cat(s[i]);
      var sofar := if category in m then m[category] else 0;  // `categorySpending[category] || 0`
      TallyNext(s, i, cat);
      if category !in m {
        keys := keys + [category];
      }
      m := m[category := sofar + s[i].amount];
      i := i + 1;
    }
    TallyAll(s, cat, keys, m);
  }

  /** The loop's step: the next expense's category is appended if new, and its amount added under it. */
  lemma TallyNext(s: seq<Transaction>, i: nat, cat: Transaction -> string)
    requires i < |s|
    ensures var keys, m, c := Dedup(Categories(s[..i], cat)), Tally(s[..i], cat), cat(s[i]);
      Dedup(Categories(s[..i + 1], cat)) == (if c in m then keys else keys + [c])
      && Tally(s[..i + 1], cat) == m[c := (if c in m then m[c] else 0) + s[i].amount]
  {
    assert s[..i + 1] == s[..i] + [s[i]];
    TallyKeys(cat, s[..i], s[i]);
    TallyDomain(s[..i], cat);
    TallySnoc(s[..i], s[i], cat);
  }

  lemma TallyAll(s: seq<Transaction>, cat: Transaction -> string, keys: seq<string>, m: map<string, int>)
    requires keys == Dedup(Categories(s[..|s|], cat)) && m == Tally(s[..|s|], cat)
    ensures keys == Dedup(Categories(s, cat))
    ensures forall k :: k in m <==> k in keys
    ensures forall k :: k in m ==> m[k] == CategoryTotal(s, cat, k)
  {
    assert s[..|s|] == s;
    TallyDomain(s, cat);
    TallyTotals(s, cat);
  }

  /** One more expense adds its amount under its category. */
  lemma TallySnoc(p: seq<Transaction>, t: Transaction, cat: Transaction -> string)
    ensures Tally(p + [t], cat) == var m := Tally(p, cat); m[cat(t) := (if cat(t) in m then m[cat(t)] else 0) + t.amount]
  {
    assert (p + [t])[..|p|] == p;
  }

  /** The keys of the tally are the categories that occur. */
  lemma {:induction false} TallyDomain(p: seq<Transaction>, cat: Transaction -> string)
    ensures forall k :: k in Tally(p, cat) <==> k in Dedup(Categories(p, cat))
    decreases |p|
  {
    if p != [] {
      var q, t := p[..|p| - 1], p[|p| - 1];
      TallyDomain(q, cat);
      assert p == q + [t];
      TallyKeys(cat, q, t);
    }
  }

  /** Each entry of the tally is the total of its category. */
  lemma {:induction false} TallyTotals(p: seq<Transaction>, cat: Transaction -> string)
    ensures forall k :: k in Tally(p, cat) ==> Tally(p, cat)[k] == CategoryTotal(p, cat, k)
    decreases |p|
  {
    if p != [] {
      var q, t := p[..|p| - 1], p[|p| - 1];
      TallyTotals(q, cat);
      TallyDomain(q, cat);
      assert p == q + [t];
      forall k | k in Tally(p, cat)
        ensures Tally(p, cat)[k] == CategoryTotal(p, cat, k)
      {
        TallyTotal(cat, q, t, k, Tally(q, cat));
      }
    }
  }

  /** The categories of one more expense without repeats: its category is appended if it is new. */
  lemma TallyKeys(cat: Transaction -> string, p: seq<Transaction>, t: Transaction)
    ensures Dedup(Categories(p + [t], cat)) == var keys := Dedup(Categories(p, cat));
      if cat(t) in keys then keys else keys + [cat(t)]
  {
    assert Categories(p + [t], cat) == Categories(p, cat) + [cat(t)];
    DedupSnoc(Categories(p, cat), cat(t));
  }

  /** A total over one more expense: it grows by the amount in that expense's category only. */
  lemma TallyTotal(cat: Transaction -> string, p: seq<Transaction>, t: Transaction, k: string, m: map<string, int>)
    requires forall k :: k in m <==> k in Dedup(Categories(p, cat))
    requires forall k :: k in m ==> m[k] == CategoryTotal(p, cat, k)
    ensures CategoryTotal(p + [t], cat, k) == (if k in m then m[k] else 0) + (if cat(t) == k then t.amount else 0)
  {
    FilterAppend(p, [t], InCategory(cat, k));
    assert [t][1..] == [];
    SumAmountsAppend(Filter(p, InCategory(cat, k)), Filter([t], InCategory(cat, k)));
    if k !in m {
      assert forall j :: 0 <= j < |p| ==> Categories(p, cat)[j] in Categories(p, cat);
      FilterNone(p, InCategory(cat, k));
    }
  }

  /** `analyzeTransactions`, step by step as the page pushes the insights. */
  method AnalyzeTransactions(transactions: Option<seq<Transaction>>, year: int, month: int) returns (insights: seq<Insight>)
    ensures insights == Analysis(transactions, year, month)
  {
    insights := AnalyzeBy(CategoryOf, transactions, year, month);
  }

  /** The body of `analyzeTransactions`, with the categorization as the parameter cat. */
  method AnalyzeBy(cat: Transaction -> string, transactions: Option<seq<Transaction>>, year: int, month: int)
    returns (insights: seq<Insight>)
    ensures insights == AnalysisBy(cat, transactions, year, month)
  {
    if transactions.None? || |transactions.value| == 0 {
      return [];
    }
    var expenses := MonthExpenses(transactions.value, year, month);
    var totalExpenses := SumAmounts(expenses);
    var totalIncome := SumAmounts(MonthIncome(transactions.value, year, month));

    var top := SortedCategories(cat, expenses);
    insights := PushCategoryInsights(top, totalExpenses);
    insights := PushSavingsInsight(insights, totalIncome, totalExpenses);
    insights := PushHighInsight(insights, expenses, totalExpenses);
  }

  /** The savings-rate step: a warning below 10 percent, a success from 20 percent. */
  method PushSavingsInsight(before: seq<Insight>, totalIncome: int, totalExpenses: int) returns (insights: seq<Insight>)
    ensures insights == before + OptionSeq(SavingsInsight(totalIncome, totalExpenses))
  {
    insights := before;
    var balance := totalIncome - totalExpenses;
    if totalIncome > 0 && 100 * balance < 10 * totalIncome {
      insights := insights + [Insight(Warning, "Economia", Some(balance))];
    } else if totalIncome > 0 && 100 * balance >= 20 * totalIncome {
      insights := insights + [Insight(Success, "Economia", Some(balance))];
    }
  }

  /** The large-expenses step: one tip when some expense exceeds twice the mean. */
  method PushHighInsight(before: seq<Insight>, expenses: seq<Transaction>, totalExpenses: int) returns (insights: seq<Insight>)
    ensures insights == before + OptionSeq(HighInsight(expenses, totalExpenses))
  {
    insights := before;
    if |expenses| > 0 {
      var highExpenses := Filter(expenses, IsHigh(totalExpenses, |expenses|));
      if |highExpenses| > 0 {
        insights := insights + [Insight(Tip, "Gastos Altos", None)];
      }
    }
  }

  /** `Object.entries(categorySpending).sort(...).slice(0, 3)`. */
  method SortedCategories(cat: Transaction -> string, expenses: seq<Transaction>) returns (top: seq<(string, int)>)
    ensures top == TopCategories(expenses, cat)
  {
    var keys, m := CategorySpending(cat, expenses);
    var entries := seq(|keys|, j requires 0 <= j < |keys| => (keys[j], m[keys[j]]));
    assert entries == Entries(expenses, cat);
    top := Take3(SortBy(entries, ByAmountDesc()));
  }

  /** The `sortedCategories.forEach` that pushes one insight per top category when its share calls for one. */
  method PushCategoryInsights(top: seq<(string, int)>, totalExpenses: int) returns (insights: seq<Insight>)
    ensures insights == CategoryInsights(top, totalExpenses, |top|)
  {
    insights := [];
    var index := 0;
    while index < |top|
      invariant 0 <= index <= |top|
      invariant insights == CategoryInsights(top, totalExpenses, index)
    {
      var (category, amount) := top[index];
      if ShareAbove(amount, totalExpenses, 40) {
        insights := insights + [Insight(Warning, category, Some(amount))];
      } else if ShareAbove(amount, totalExpenses, 25) {
        insights := insights + [Insight(Tip, category, Some(amount))];
      } else if index == 0 {
        insights := insights + [Insight(Success, category, Some(amount))];
      }
      index := index + 1;
    }
  }

  // ---------------------------------------------------------------------
  // Properties

  /** Without transactions, or without any in the current month, there are no insights. */
  lemma NoTransactionsNoInsights(transactions: Option<seq<Transaction>>, year: int, month: int)
    requires transactions.Some? ==> forall i :: 0 <= i < |transactions.value| ==> !InMonthOf(year, month)(transactions.value[i])
    ensures Analysis(transactions, year, month) == []
  {
    if transactions.Some? && transactions.value != [] {
      var s := transactions.value;
      FilterNone(s, InMonthOf(year, month));
      assert MonthExpenses(s, year, month) == [] && MonthIncome(s, year, month) == [];
      assert Entries([], CategoryOf) == [];
    }
  }

  lemma {:induction false} CategoryInsightsLength(top: seq<(string, int)>, total: int, n: nat)
    requires n <= |top|
    ensures |CategoryInsights(top, total, n)| <= n
  {
    if n > 0 {
      CategoryInsightsLength(top, total, n - 1);
    }
  }

  /** At most five insights: one per top category, then one for savings and one for large expenses. */
  lemma AtMostFive(transactions: Option<seq<Transaction>>, year: int, month: int)
    ensures |Analysis(transactions, year, month)| <= 5
  {
    if transactions.Some? && transactions.value != [] {
      var top := TopCategories(MonthExpenses(transactions.value, year, month), CategoryOf);
      CategoryInsightsLength(top, SumAmounts(MonthExpenses(transactions.value, year, month)), |top|);
    }
  }

  /** The insight of the k-th top category sits among the category insights, in order. */
  lemma {:induction false} CategoryInsightsAt(top: seq<(string, int)>, total: int, n: nat, k: nat)
    requires k < n <= |top|
    ensures CategoryInsight(top[k], k, total).Some? ==> CategoryInsight(top[k], k, total).value in CategoryInsights(top, total, n)
  {
    if k < n - 1 {
      CategoryInsightsAt(top, total, n - 1, k);
    }
  }

  /** Comparing by total is a consistent comparator. */
  lemma ByAmountConsistent()
    ensures Consistent(ByAmountDesc())
  {
  }

  /**
   * The top categories are at most three entries, largest total first, and
   * no category left out has a larger total than one kept.
   */
  lemma TopAreLargest(expenses: seq<Transaction>, cat: Transaction -> string)
    ensures var entries, top := Entries(expenses, cat), TopCategories(expenses, cat);
      |top| == (if |entries| <= 3 then |entries| else 3)
      && (forall i, j :: 0 <= i < j < |top| ==> top[i].1 >= top[j].1)
      && exists rest: seq<(string, int)> :: multiset(top) + multiset(rest) == multiset(entries)
          && forall x, y :: x in top && y in rest ==> x.1 >= y.1
  {
    TopOfSorted(Entries(expenses, cat));
  }

  /** Take3 of the entries sorted by total, for any entries. */
  lemma TopOfSorted(entries: seq<(string, int)>)
    ensures var top := Take3(SortBy(entries, ByAmountDesc()));
      |top| == (if |entries| <= 3 then |entries| else 3)
      && (forall i, j :: 0 <= i < j < |top| ==> top[i].1 >= top[j].1)
      && exists rest: seq<(string, int)> :: multiset(top) + multiset(rest) == multiset(entries)
          && forall x, y :: x in top && y in rest ==> x.1 >= y.1
  {
    var sorted := SortBy(entries, ByAmountDesc());
    ByAmountConsistent();
    SortBySorted(entries, ByAmountDesc());
    SortByPermutation(entries, ByAmountDesc());
    var top := Take3(sorted);
    var rest := sorted[|top|..];
    SortedSplit(sorted, |top|);
    assert sorted == top + rest;
    assert multiset(top) + multiset(rest) == multiset(entries);
  }

  /** In a list sorted by decreasing total, a prefix is in order and none after it is larger. */
  lemma SortedSplit(sorted: seq<(string, int)>, n: nat)
    requires n <= |sorted| && Sorted(sorted, ByAmountDesc())
    ensures forall i, j :: 0 <= i < j < n ==> sorted[..n][i].1 >= sorted[..n][j].1
    ensures forall x, y :: x in sorted[..n] && y in sorted[n..] ==> x.1 >= y.1
  {
    forall x, y | x in sorted[..n] && y in sorted[n..]
      ensures x.1 >= y.1
    {
      var i :| 0 <= i < n && sorted[i] == x;
      var j :| n <= j < |sorted| && sorted[j] == y;
      assert ByAmountDesc()(sorted[i], sorted[j]) <= 0;
    }
    forall i, j | 0 <= i < j < n
      ensures sorted[..n][i].1 >= sorted[..n][j].1
    {
      assert ByAmountDesc()(sorted[i], sorted[j]) <= 0;
    }
  }

  /** The entries are the distinct categories used, each with the sum of its expenses. */
  lemma EntriesTotals(expenses: seq<Transaction>, cat: Transaction -> string, k: string)
    ensures (exists j :: 0 <= j < |Entries(expenses, cat)| && Entries(expenses, cat)[j].0 == k)
        <==> exists t :: t in expenses && cat(t) == k
    ensures forall j :: 0 <= j < |Entries(expenses, cat)| ==> Entries(expenses, cat)[j].1 == CategoryTotal(expenses, cat, Entries(expenses, cat)[j].0)
  {
    var cs := Categories(expenses, cat);
    var keys := Dedup(cs);
    var entries := Entries(expenses, cat);
    if t :| t in expenses && cat(t) == k {
      var i :| 0 <= i < |expenses| && expenses[i] == t;
      assert cs[i] == k;
      assert k in keys;
      var j :| 0 <= j < |keys| && keys[j] == k;
      assert entries[j].0 == k;
    }
    if j :| 0 <= j < |entries| && entries[j].0 == k {
      assert keys[j] in cs;
      var i :| 0 <= i < |cs| && cs[i] == k;
      assert expenses[i] in expenses;
    }
  }

  /** The savings insight needs income: with none, whatever the expenses, there is no savings insight. */
  lemma NoIncomeNoSavings(totalExpenses: int)
    ensures SavingsInsight(0, totalExpenses) == None
  {
  }

  /** The high-spending tip appears exactly when some expense is above twice the mean. */
  lemma HighInsightExact(expenses: seq<Transaction>)
    ensures HighInsight(expenses, SumAmounts(expenses)).Some?
        <==> exists t :: t in expenses && t.amount * |expenses| > 2 * SumAmounts(expenses)
  {
    var p := IsHigh(SumAmounts(expenses), |expenses|);
    var high := Filter(expenses, p);
    if t :| t in expenses && t.amount * |expenses| > 2 * SumAmounts(expenses) {
      FilterMember(expenses, p, t);
    }
    if |high| > 0 {
      FilterMember(expenses, p, high[0]);
    }
  }
}
