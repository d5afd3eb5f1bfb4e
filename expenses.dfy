/** The general ledger page: totals over every transaction. */
module ExpensesPage {
  import opened FinanceTypes
  import opened Ledger
  import FinanceContext

  function TotalIncome(ts: seq<Transaction>): real
  {
    TypeTotal(ts, Income)
  }

  function TotalExpense(ts: seq<Transaction>): real
  {
    TypeTotal(ts, Expense)
  }

  /** "Balance": all income minus all expense. */
  function Balance(ts: seq<Transaction>): (b: real)
    ensures b + TotalExpense(ts) == TotalIncome(ts)
    ensures b == Signed(ts)
  {
    SignedSplit(ts);
    TotalIncome(ts) - TotalExpense(ts)
  }

  /** The page agrees with the dashboard: the balance is the summary's profit, and the
      two totals add up to every amount in the ledger. */
  lemma LedgerPageFigures(ts: seq<Transaction>, cs: seq<Component>, ps: seq<Project>)
    ensures Balance(ts) == FinanceContext.SummaryOf(ts, cs, ps).profit
    ensures TotalIncome(ts) + TotalExpense(ts) == Total(ts)
    ensures |OfType(ts, Income)| + |OfType(ts, Expense)| == |ts|
  {
    TypeSplit(ts);
  }
}
