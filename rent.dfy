/** The rent page: rent paid, rent-related income, and the monthly average over the
    months that have rent rows. */
module RentPage {
  import opened FinanceTypes
  import opened NumberInput
  import opened Ledger
  import FinanceContext

  function RentTransactions(ts: seq<Transaction>): seq<Transaction>
  {
    OfCategory(ts, Rent)
  }

  /** "Total Rent Paid": rent rows of type expense. */
  function TotalRent(ts: seq<Transaction>): real
  {
    CategoryTypeTotal(ts, Rent, Expense)
  }

  /** "Rent-Related Income": rent rows of type income. */
  function RentIncome(ts: seq<Transaction>): real
  {
    CategoryTypeTotal(ts, Rent, Income)
  }

  /** The page's two figures together make the dashboard's rent total. */
  lemma RentMatchesDashboard(ts: seq<Transaction>, cs: seq<Component>, ps: seq<Project>)
    ensures TotalRent(ts) + RentIncome(ts) == FinanceContext.SummaryOf(ts, cs, ps).rentTotal
  {
    CategorySplit(ts, Rent);
  }

  /** The `YYYY-MM` prefix of a transaction date. */
  function MonthKey(t: Transaction): (int, int)
  {
    (t.date.year, t.date.month)
  }

  /** The distinct month prefixes among the rows. */
  function MonthKeys(rs: seq<Transaction>): (r: set<(int, int)>)
    ensures |r| <= |rs|
    ensures forall i :: 0 <= i < |rs| ==> MonthKey(rs[i]) in r
    ensures forall k :: k in r ==> exists i :: 0 <= i < |rs| && MonthKey(rs[i]) == k
  {
    if rs == [] then {} else {MonthKey(rs[0])} + MonthKeys(rs[1..])
  }

  /** "Monthly Average": 0 without rent rows; otherwise rent paid divided by the number
      of distinct months among all rent rows, rounded half up. */
  function MonthlyAverage(ts: seq<Transaction>): (avg: int)
    ensures RentTransactions(ts) == [] ==> avg == 0
    ensures RentTransactions(ts) != [] ==>
      1 <= |MonthKeys(RentTransactions(ts))| <= |RentTransactions(ts)|
      && avg == Round(TotalRent(ts) / |MonthKeys(RentTransactions(ts))| as real)
  {
    var rs := RentTransactions(ts);
    if |rs| > 0 then
      assert MonthKey(rs[0]) in MonthKeys(rs);
      var months := if |MonthKeys(rs)| > 1 then |MonthKeys(rs)| else 1;
      Round(TotalRent(ts) / months as real)
    else 0
  }

  /** With every rent row in one month, the average is the whole rent paid. */
  lemma SingleMonthAverage(ts: seq<Transaction>)
    requires RentTransactions(ts) != []
    requires forall i :: 0 <= i < |RentTransactions(ts)| ==>
      MonthKey(RentTransactions(ts)[i]) == MonthKey(RentTransactions(ts)[0])
    ensures MonthlyAverage(ts) == Round(TotalRent(ts))
  {
    var rs := RentTransactions(ts);
    assert MonthKeys(rs) == {MonthKey(rs[0])};
  }

  /** Rows in pairwise different months count one month each, so the average divides by
      the number of rent rows. */
  lemma {:induction false} DistinctMonthsCount(rs: seq<Transaction>)
    requires forall i, j :: 0 <= i < j < |rs| ==> MonthKey(rs[i]) != MonthKey(rs[j])
    ensures |MonthKeys(rs)| == |rs|
  {
    if rs != [] {
      var rest := rs[1..];
      forall i, j | 0 <= i < j < |rest| ensures MonthKey(rest[i]) != MonthKey(rest[j]) {
        assert rest[i] == rs[i + 1] && rest[j] == rs[j + 1];
      }
      DistinctMonthsCount(rest);
      forall k | k in MonthKeys(rest) ensures k != MonthKey(rs[0]) {
        var i :| 0 <= i < |rest| && MonthKey(rest[i]) == k;
        assert rest[i] == rs[i + 1];
      }
    }
  }

  /** Months that hold only rent income still count as months: 300 paid in January and
      100 received in February average to 150, not 300. */
  lemma IncomeOnlyMonthCounts()
    ensures var ts := [Transaction("1", Expense, Rent, 300.0, "", Date(2024, 1, 5), ""),
                       Transaction("2", Income, Rent, 100.0, "", Date(2024, 2, 5), "")];
      MonthlyAverage(ts) == 150
  {
    var t0 := Transaction("1", Expense, Rent, 300.0, "", Date(2024, 1, 5), "");
    var t1 := Transaction("2", Income, Rent, 100.0, "", Date(2024, 2, 5), "");
    var ts := [t0, t1];
    assert ts[1..] == [t1];
    assert OfCategory([t1], Rent) == [t1] + OfCategory([], Rent);
    assert RentTransactions(ts) == ts;
    assert [t1][1..] == [];
    assert MonthKeys(ts) == {(2024, 1), (2024, 2)};
    assert OfType(ts, Expense) == [t0] + OfType([t1], Expense);
    TotalCons(t0, []);
    assert TotalRent(ts) == 300.0;
  }
}
