/** The monthly-entry page: a year's twelve month tiles with their income, expense and
    count, and the detail view of one selected month. */
module MonthlyEntryPage {
  import opened Wrappers
  import opened FinanceTypes
  import opened Ledger

  const MonthNames: seq<string> :=
    ["January", "February", "March", "April", "May", "June",
     "July", "August", "September", "October", "November", "December"]

  /** The year picker: six consecutive years, from three before the current one. */
  function Years(currentYear: int): (r: seq<int>)
    ensures |r| == 6 && r[0] == currentYear - 3 && r[5] == currentYear + 2
    ensures forall i :: 0 <= i < 5 ==> r[i + 1] == r[i] + 1
    ensures currentYear in r
  {
    assert (seq(6, i => currentYear - 3 + i))[3] == currentYear;
    seq(6, i => currentYear - 3 + i)
  }

  /** The 0-based month index a JavaScript date reports for a transaction date. */
  function MonthIndex(d: Date): int
  {
    d.month - 1
  }

  /** The transactions dated in month `m` (0-based) of year `y`, in list order. */
  function InMonth(ts: seq<Transaction>, m: int, y: int): (r: seq<Transaction>)
    ensures |r| <= |ts|
    ensures forall t :: t in r <==> t in ts && MonthIndex(t.date) == m && t.date.year == y
  {
    if ts == [] then []
    else if MonthIndex(ts[0].date) == m && ts[0].date.year == y then [ts[0]] + InMonth(ts[1..], m, y)
    else InMonth(ts[1..], m, y)
  }

  /** The detail view's list: nothing until a month is selected. */
  function MonthTransactions(ts: seq<Transaction>, selected: Option<int>, year: int): (r: seq<Transaction>)
    ensures selected.None? ==> r == []
    ensures selected.Some? ==>
              forall t :: t in r <==> (t in ts && MonthIndex(t.date) == selected.value && t.date.year == year)
  {
    if selected.None? then [] else InMonth(ts, selected.value, year)
  }

  datatype MonthStats = MonthStats(income: real, expense: real, count: nat)

  /** `getMonthStats(i)` for the selected year. */
  function GetMonthStats(ts: seq<Transaction>, i: int, year: int): (s: MonthStats)
    ensures s.count == |InMonth(ts, i, year)|
    ensures s.income + s.expense == Total(InMonth(ts, i, year))
  {
    var monthTx := InMonth(ts, i, year);
    TypeSplit(monthTx);
    MonthStats(TypeTotal(monthTx, Income), TypeTotal(monthTx, Expense), |monthTx|)
  }

  /** The detail view's cards: income, expenses and net for the selected month. */
  function DetailIncome(ts: seq<Transaction>, selected: Option<int>, year: int): real
  {
    TypeTotal(MonthTransactions(ts, selected, year), Income)
  }

  function DetailExpense(ts: seq<Transaction>, selected: Option<int>, year: int): real
  {
    TypeTotal(MonthTransactions(ts, selected, year), Expense)
  }

  /** The "Net Profit" card: the month's income minus its expenses, which is the
      running balance of the month's rows. */
  function DetailNet(ts: seq<Transaction>, selected: Option<int>, year: int): (net: real)
    ensures net == Signed(MonthTransactions(ts, selected, year))
    ensures net + DetailExpense(ts, selected, year) == DetailIncome(ts, selected, year)
  {
    SignedSplit(MonthTransactions(ts, selected, year));
    DetailIncome(ts, selected, year) - DetailExpense(ts, selected, year)
  }

  /** The detail cards agree with the month's tile. */
  lemma DetailMatchesTile(ts: seq<Transaction>, m: int, year: int)
    ensures DetailIncome(ts, Some(m), year) == GetMonthStats(ts, m, year).income
    ensures DetailExpense(ts, Some(m), year) == GetMonthStats(ts, m, year).expense
    ensures DetailIncome(ts, None, year) == 0.0 && DetailExpense(ts, None, year) == 0.0
  {
  }

  /** The transactions dated in year `y`. */
  function InYear(ts: seq<Transaction>, y: int): seq<Transaction>
  {
    if ts == [] then []
    else if ts[0].date.year == y then [ts[0]] + InYear(ts[1..], y)
    else InYear(ts[1..], y)
  }

  /** Σ over the first `k` month tiles of their counts. */
  function TileCounts(ts: seq<Transaction>, y: int, k: nat): nat
  {
    if k == 0 then 0 else TileCounts(ts, y, k - 1) + |InMonth(ts, k - 1, y)|
  }

  lemma {:induction false} TileCountsEmpty(y: int, k: nat)
    ensures TileCounts([], y, k) == 0
  {
    if k > 0 {
      TileCountsEmpty(y, k - 1);
    }
  }

  lemma {:induction false} TileCountsStep(ts: seq<Transaction>, y: int, k: nat)
    requires ts != []
    ensures TileCounts(ts, y, k) == TileCounts(ts[1..], y, k)
      + (if ts[0].date.year == y && 0 <= MonthIndex(ts[0].date) < k then 1 else 0)
  {
    if k > 0 {
      TileCountsStep(ts, y, k - 1);
    }
  }

  /** With valid dates the twelve tiles of a year count each of its transactions once. */
  lemma {:induction false} TilesPartitionYear(ts: seq<Transaction>, y: int)
    requires forall i :: 0 <= i < |ts| ==> ts[i].date.Valid()
    ensures TileCounts(ts, y, 12) == |InYear(ts, y)|
  {
    if ts == [] {
      TileCountsEmpty(y, 12);
    } else {
      assert forall i :: 0 <= i < |ts[1..]| ==> ts[1..][i] == ts[i + 1];
      TilesPartitionYear(ts[1..], y);
      TileCountsStep(ts, y, 12);
      assert ts[0].date.Valid();
    }
  }
}
