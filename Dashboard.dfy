/**
 * The summary of src/app/dashboard/page.tsx: the transactions of the current
 * month, selected by comparing date strings with the month's first and last
 * day; the income and expense totals over them and the projected balance;
 * and which panel shows the server's daily balances. `new Date()` is the
 * parameter pair `year`, `month` (month from 1); `toAmount` is the identity
 * on whole cents.
 */
module Dashboard {
  import opened Wrappers
  import opened Dates
  import opened Strings
  import opened Format
  import opened Seqs
  import opened Transactions
  import opened BalanceMerge
  import opened BalanceMergeFacts

  /** `t.transaction_date >= startISO && t.transaction_date <= endISO`. */
  predicate InRange(t: Transaction, year: int, month: int) {
    LexLessEq(MonthStartISO(year, month), FormatISODate(t.transaction_date))
    && LexLessEq(FormatISODate(t.transaction_date), MonthEndISO(year, month))
  }

  /** `monthlyTransactions`: no data counts as an empty list. */
  function MonthlyTransactions(transactions: Option<seq<Transaction>>, year: int, month: int): seq<Transaction> {
    Filter(if transactions.Some? then transactions.value else [], (t: Transaction) => InRange(t, year, month))
  }

  function IsIncome(t: Transaction): bool { t.kind == Income }

  function IsExpense(t: Transaction): bool { t.kind == Expense }

  function TotalIncome(s: seq<Transaction>): int {
    SumAmounts(Filter(s, IsIncome))
  }

  function TotalExpense(s: seq<Transaction>): int {
    SumAmounts(Filter(s, IsExpense))
  }

  /** `endOfMonthBalance`. */
  function EndOfMonthBalance(s: seq<Transaction>): int {
    TotalIncome(s) - TotalExpense(s)
  }

  /** The balance card's colour and caption: positive, or a warning. */
  datatype BalanceTone = Positive | Warning

  function Tone(balance: int): (r: BalanceTone)
    ensures r == Positive <==> balance >= 0
  {
    if balance >= 0 then Positive else Warning
  }

  /** What the page shows where the daily balances go. */
  datatype BalancePanel = LoadingPage | CalendarAndDayList(balances: seq<DailyBalance>) | NoTransactions

  /**
   * The loading page while either query loads; otherwise the calendar and
   * the day list on the server's list when it is not empty. (The inner
   * `balanceLoading ?` test is never reached after the early return.)
   */
  function Panel(txLoading: bool, balanceLoading: bool, dailyBalance: Option<seq<DailyBalance>>): (r: BalancePanel)
    ensures r.CalendarAndDayList? <==> !txLoading && !balanceLoading && dailyBalance.Some? && dailyBalance.value != []
    ensures r.CalendarAndDayList? ==> r.balances == dailyBalance.value
    ensures r.LoadingPage? <==> txLoading || balanceLoading
  {
    if txLoading || balanceLoading then LoadingPage
    else if dailyBalance.Some? && |dailyBalance.value| > 0 then CalendarAndDayList(dailyBalance.value)
    else NoTransactions
  }

  // ---------------------------------------------------------------------
  // Properties

  /**
   * For a month of a four-digit year, the string bounds keep exactly the
   * transactions dated in that month.
   */
  lemma MonthlyExact(transactions: seq<Transaction>, year: int, month: int, t: Transaction)
    requires 1000 <= year <= 9999 && 1 <= month <= 12
    requires GoodDate(t.transaction_date)
    ensures t in MonthlyTransactions(Some(transactions), year, month)
        <==> t in transactions && t.transaction_date.year == year && t.transaction_date.month == month
  {
    FilterMember(transactions, (u: Transaction) => InRange(u, year, month), t);
    MonthBounds(year, month);
    var d := t.transaction_date;
    IsoCompare(FirstOfMonth(year, month), d);
    IsoCompare(d, LastOfMonth(year, month));
    DateInMonth(d, year, month);
    assert DateCompare(FirstOfMonth(year, month), d) <= 0 <==> DateCompare(d, FirstOfMonth(year, month)) >= 0;
  }

  /** Without data there is nothing to count. */
  lemma MonthlyOfNone(year: int, month: int)
    ensures MonthlyTransactions(None, year, month) == []
    ensures EndOfMonthBalance(MonthlyTransactions(None, year, month)) == 0
  {
  }

  /** The sum of the signed amounts: +amount for income, -amount for expense. */
  function SignedSum(s: seq<Transaction>): int {
    if s == [] then 0 else Signed(s[0].kind, s[0].amount) + SignedSum(s[1..])
  }

  /** The projected balance is every transaction's signed amount added up. */
  lemma {:induction false} BalanceIsSignedSum(s: seq<Transaction>)
    ensures EndOfMonthBalance(s) == SignedSum(s)
    decreases |s|
  {
    if s != [] {
      BalanceIsSignedSum(s[1..]);
      var x := s[0];
      var inc, exp := Filter(s[1..], IsIncome), Filter(s[1..], IsExpense);
      if x.kind == Income {
        assert Filter(s, IsIncome) == [x] + inc;
        assert ([x] + inc)[1..] == inc;
        assert Filter(s, IsExpense) == exp;
      } else {
        assert Filter(s, IsExpense) == [x] + exp;
        assert ([x] + exp)[1..] == exp;
        assert Filter(s, IsIncome) == inc;
      }
    }
  }

  /** The totals of two lists one after the other are the sums of their totals. */
  lemma TotalsAppend(a: seq<Transaction>, b: seq<Transaction>)
    ensures TotalIncome(a + b) == TotalIncome(a) + TotalIncome(b)
    ensures TotalExpense(a + b) == TotalExpense(a) + TotalExpense(b)
  {
    FilterAppend(a, b, IsIncome);
    FilterAppend(a, b, IsExpense);
    SumAmountsAppend(Filter(a, IsIncome), Filter(b, IsIncome));
    SumAmountsAppend(Filter(a, IsExpense), Filter(b, IsExpense));
  }

  /** With non-negative amounts (the form's amounts), both totals are non-negative. */
  lemma {:induction false} TotalsNonNegative(s: seq<Transaction>)
    requires forall i :: 0 <= i < |s| ==> s[i].amount >= 0
    ensures TotalIncome(s) >= 0 && TotalExpense(s) >= 0
    decreases |s|
  {
    if s != [] {
      TotalsNonNegative(s[1..]);
      assert s == [s[0]] + s[1..];
      TotalsAppend([s[0]], s[1..]);
    }
  }
}
