/** The marketing page: ad spend, marketing income, the net result and the ROI badge. */
module MarketingPage {
  import opened FinanceTypes
  import opened Ledger
  import FinanceContext

  /** "Total Ad Spend": marketing rows of type expense. */
  function TotalSpend(ts: seq<Transaction>): real
  {
    CategoryTypeTotal(ts, Marketing, Expense)
  }

  /** "Marketing Income": marketing rows of type income. */
  function MarketingIncome(ts: seq<Transaction>): real
  {
    CategoryTypeTotal(ts, Marketing, Income)
  }

  /** "Net Result", shown with the income colour when it is not negative. */
  function NetResult(ts: seq<Transaction>): (net: real)
    ensures net + TotalSpend(ts) == MarketingIncome(ts)
    ensures net == Signed(OfCategory(ts, Marketing))
  {
    SignedSplit(OfCategory(ts, Marketing));
    MarketingIncome(ts) - TotalSpend(ts)
  }

  /** The ROI percentage before formatting; with no spend it is 0. */
  function Roi(ts: seq<Transaction>): (roi: real)
    ensures TotalSpend(ts) <= 0.0 ==> roi == 0.0
    ensures TotalSpend(ts) > 0.0 ==> roi * TotalSpend(ts) == 100.0 * NetResult(ts)
  {
    var spend := TotalSpend(ts);
    if spend > 0.0 then (MarketingIncome(ts) - spend) / spend * 100.0 else 0.0
  }

  /** `toFixed(1)` read back as a number: the magnitude rounded to one decimal, ties
      away from zero, with the sign kept. */
  function Fixed1(x: real): (r: real)
    ensures x >= 0.0 ==> x - 0.05 < r <= x + 0.05
    ensures x < 0.0 ==> x - 0.05 <= r < x + 0.05
  {
    if x >= 0.0 then (x * 10.0 + 0.5).Floor as real / 10.0
    else -((-x * 10.0 + 0.5).Floor as real / 10.0)
  }

  /** The ROI badge takes the income colour when the formatted figure reads as a
      non-negative number. */
  predicate RoiBadgeIsIncome(ts: seq<Transaction>)
  {
    TotalSpend(ts) <= 0.0 || Fixed1(Roi(ts)) >= 0.0
  }

  /** Formatting sends ROIs just below zero to "-0.0", which reads back as zero: the
      badge is green exactly when the ROI is above -0.05 percent. */
  lemma RoiBadgeThreshold(ts: seq<Transaction>)
    ensures RoiBadgeIsIncome(ts) <==> Roi(ts) > -0.05
  {
    var x := Roi(ts);
    if x < 0.0 {
      if x > -0.05 {
        assert (-x * 10.0 + 0.5).Floor == 0;
      } else {
        assert (-x * 10.0 + 0.5).Floor >= 1;
      }
    }
  }

  /** With spend, the ROI is non-negative exactly when income covers the spend, and
      with non-negative amounts it never drops below -100 percent. */
  lemma RoiMeaning(ts: seq<Transaction>)
    requires TotalSpend(ts) > 0.0
    ensures Roi(ts) >= 0.0 <==> MarketingIncome(ts) >= TotalSpend(ts)
    ensures NonNegativeAmounts(ts) ==> Roi(ts) >= -100.0
  {
    var spend, income := TotalSpend(ts), MarketingIncome(ts);
    if NonNegativeAmounts(ts) {
      NonNegativeFiltered(ts);
      assert income >= 0.0;
      assert Roi(ts) * spend == 100.0 * (income - spend);
    }
  }

  lemma {:induction false} NonNegativeFiltered(ts: seq<Transaction>)
    requires NonNegativeAmounts(ts)
    ensures MarketingIncome(ts) >= 0.0
  {
    var rows := OfType(OfCategory(ts, Marketing), Income);
    assert forall i :: 0 <= i < |rows| ==> rows[i] in ts;
    TotalNonNegative(rows);
  }

  /** The dashboard's marketing total is spend plus income, not spend alone. */
  lemma MarketingMatchesDashboard(ts: seq<Transaction>, cs: seq<Component>, ps: seq<Project>)
    ensures TotalSpend(ts) + MarketingIncome(ts) == FinanceContext.SummaryOf(ts, cs, ps).marketingTotal
  {
    CategorySplit(ts, Marketing);
  }
}
