/** The school programme page: revenue, costs, profit and the row count of the school
    category. */
module SchoolPage {
  import opened FinanceTypes
  import opened Ledger
  import FinanceContext

  function SchoolTransactions(ts: seq<Transaction>): seq<Transaction>
  {
    OfCategory(ts, School)
  }

  function ProgramRevenue(ts: seq<Transaction>): real
  {
    CategoryTypeTotal(ts, School, Income)
  }

  function ProgramCosts(ts: seq<Transaction>): real
  {
    CategoryTypeTotal(ts, School, Expense)
  }

  /** "Net Profit": revenue minus costs. */
  function NetProfit(ts: seq<Transaction>): (p: real)
    ensures p + ProgramCosts(ts) == ProgramRevenue(ts)
    ensures p == Signed(SchoolTransactions(ts))
  {
    SignedSplit(SchoolTransactions(ts));
    ProgramRevenue(ts) - ProgramCosts(ts)
  }

  /** The page's revenue is the dashboard's school revenue; revenue and costs together
      cover every school row, and the row count splits the same way. */
  lemma SchoolFigures(ts: seq<Transaction>, cs: seq<Component>, ps: seq<Project>)
    ensures ProgramRevenue(ts) == FinanceContext.SummaryOf(ts, cs, ps).schoolRevenue
    ensures ProgramRevenue(ts) + ProgramCosts(ts) == CategoryTotal(ts, School)
    ensures |SchoolTransactions(ts)|
         == |OfType(SchoolTransactions(ts), Income)| + |OfType(SchoolTransactions(ts), Expense)|
  {
    TypeSplit(SchoolTransactions(ts));
  }
}
