/**
 * The data shapes of src/types/index.ts that the modelled code works on.
 * Amounts are integer cents; dates are calendar triples (the strings the
 * server sends are their ISO forms). The TypeScript field `type` is `kind`
 * here, `type` being a Dafny keyword.
 */
module Transactions {
  import opened Wrappers
  import opened Dates

  datatype TxType = Income | Expense

  /** The body of a create request. */
  datatype TransactionCreate = TransactionCreate(
    description: string,
    amount: int,
    kind: TxType,
    transaction_date: Date,
    category_id: Option<int>)

  /** A server id is a number; a preview shown in a transaction list keeps its string id in that slot. */
  datatype TxId = ServerId(n: int) | PreviewId(s: string)

  /** A transaction as the lists show it (creation and update stamps are not modelled). */
  datatype Transaction = Transaction(
    id: TxId,
    user_id: int,
    description: string,
    amount: int,
    kind: TxType,
    transaction_date: Date,
    category_id: Option<int>)

  /** A draft transaction held on the client for a limited time; times are epoch milliseconds. */
  datatype Preview = Preview(
    id: string,
    description: string,
    amount: int,
    kind: TxType,
    transaction_date: Date,
    category_id: Option<int>,
    createdAt: int,
    expiresAt: int)

  datatype BalanceStatus = Red | Yellow | Green | Unconfigured

  /** One day's balance; the server's null status is None. */
  datatype DailyBalance = DailyBalance(date: Date, balance: int, status: Option<BalanceStatus>)

  datatype UserPreferences = UserPreferences(bad_threshold: int, ok_threshold: int, good_threshold: int)

  /** The effect of one entry on a balance: +amount for income, -amount for expense. */
  function Signed(kind: TxType, amount: int): int {
    if kind == Income then amount else -amount
  }

  /** The sum of the amounts: `reduce((s, t) => s + Number(t.amount), 0)`. */
  function SumAmounts(s: seq<Transaction>): int {
    if s == [] then 0 else s[0].amount + SumAmounts(s[1..])
  }

  /** The sum over two lists one after the other. */
  lemma {:induction false} SumAmountsAppend(a: seq<Transaction>, b: seq<Transaction>)
    ensures SumAmounts(a + b) == SumAmounts(a) + SumAmounts(b)
    decreases |a|
  {
    if a == [] {
      assert a + b == b;
    } else {
      assert (a + b)[1..] == a[1..] + b;
      SumAmountsAppend(a[1..], b);
    }
  }
}
