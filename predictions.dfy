/** The predictions page: the payload sent to the edge function, the page state around
    the call, and the colour and icon rules applied to the reply. */
module PredictionsPage {
  import opened Wrappers
  import opened FinanceTypes
  import Text
  import FinanceContext
  import AiPredictions

  /** One of the recent transactions as sent: type, category, amount and date only. */
  datatype Digest = Digest(kind: TxType, category: Category, amount: real, date: Date)

  datatype Breakdown = Breakdown(rent: real, salary: real, marketing: real, utilities: Figure, courses: real)

  /** `financialData`. The monthly figures and utilities are read off the summary as
      they are; JSON encoding drops undefined values and writes NaN as null. */
  datatype FinancialData = FinancialData(
    totalIncome: real,
    totalExpenses: real,
    netCashflow: real,
    monthlyIncome: Figure,
    monthlyExpense: Figure,
    monthlyProfit: Figure,
    categoryBreakdown: Breakdown,
    recentTransactions: seq<Digest>)

  function DigestOf(t: Transaction): Digest
  {
    Digest(t.kind, t.category, t.amount, t.date)
  }

  /** `transactions.slice(0, 20).map(...)`: the first twenty, in list order. */
  function Recent(ts: seq<Transaction>): (r: seq<Digest>)
    ensures |r| == if |ts| < 20 then |ts| else 20
    ensures forall i :: 0 <= i < |r| ==> r[i] == DigestOf(ts[i])
  {
    var n := if |ts| < 20 then |ts| else 20;
    seq(n, i requires 0 <= i < n => DigestOf(ts[i]))
  }

  function Payload(s: DashboardSummary, ts: seq<Transaction>): FinancialData
  {
    FinancialData(
      s.totalIncome, s.totalExpense, s.profit,
      s.monthlyIncome, s.monthlyExpense, Minus(s.monthlyIncome, s.monthlyExpense),
      Breakdown(s.rentTotal, s.salaryTotal, s.marketingTotal, s.utilitiesTotal, s.coursesRevenue),
      Recent(ts))
  }

  /** Built from the store's own summary, the payload's net cashflow is income minus
      expenses, its category figures are the dashboard's, and, since the summary never
      computes them, the monthly figures and utilities are undefined and the monthly
      profit is NaN. */
  lemma PayloadFromStore(ts: seq<Transaction>, cs: seq<Component>, ps: seq<Project>)
    ensures var d := Payload(FinanceContext.SummaryOf(ts, cs, ps), ts);
      d.netCashflow == d.totalIncome - d.totalExpenses
      && d.monthlyIncome == Undefined && d.monthlyExpense == Undefined
      && d.monthlyProfit == NaN
      && d.categoryBreakdown.utilities == Undefined
      && d.categoryBreakdown.rent == FinanceContext.SummaryOf(ts, cs, ps).rentTotal
      && d.categoryBreakdown.salary == FinanceContext.SummaryOf(ts, cs, ps).salaryTotal
      && d.categoryBreakdown.marketing == FinanceContext.SummaryOf(ts, cs, ps).marketingTotal
      && d.categoryBreakdown.courses == FinanceContext.SummaryOf(ts, cs, ps).coursesRevenue
      && |d.recentTransactions| <= 20
      && (|ts| <= 20 ==> |d.recentTransactions| == |ts|)
  {
  }

  /** The page state around `generatePredictions`. */
  class PredictionsView<J> {
    var predictions: Option<AiPredictions.Prediction<J>>
    var loading: bool

    constructor ()
      ensures predictions.None? && !loading
    {
      predictions := None;
      loading := false;
    }

    /** One press of the button. `reply` is what the invocation brought back (None when
        the call itself failed). Only a successful reply replaces the predictions; the
        loading flag is raised on entry and lowered on every way out. */
    method Generate(reply: Option<AiPredictions.Response<J>>)
      modifies this
      ensures !loading
      ensures reply.Some? && reply.value.Success? ==> predictions == Some(reply.value.predictions)
      ensures !(reply.Some? && reply.value.Success?) ==> predictions == old(predictions)
    {
      loading := true;
      if reply.Some? && reply.value.Success? {
        predictions := Some(reply.value.predictions);
      }
      loading := false;
    }
  }

  /** Following a failed request, the page still shows the last good predictions. */
  method GenerateKeepsLastGood<J>(view: PredictionsView<J>, good: AiPredictions.Response<J>, bad: AiPredictions.Response<J>)
    requires good.Success? && !bad.Success?
    modifies view
    ensures view.predictions == Some(good.predictions) && !view.loading
  {
    view.Generate(Some(good));
    view.Generate(Some(bad));
    view.Generate(None);
  }

  datatype Tone = SuccessTone | WarningTone | DestructiveTone | MutedTone

  /** `getRiskColor`: low, medium and high in any letter case; anything else, or no
      level at all, is muted. */
  function RiskColor(level: Option<string>): (t: Tone)
    ensures level.None? ==> t == MutedTone
    ensures t == SuccessTone <==> level.Some? && Text.Lower(level.value) == "low"
    ensures t == WarningTone <==> level.Some? && Text.Lower(level.value) == "medium"
    ensures t == DestructiveTone <==> level.Some? && Text.Lower(level.value) == "high"
  {
    if level.None? then MutedTone
    else
      var l := Text.Lower(level.value);
      if l == "low" then SuccessTone
      else if l == "medium" then WarningTone
      else if l == "high" then DestructiveTone
      else MutedTone
  }

  /** The risk colour ignores letter case: a level and its lower-cased form get the same
      colour ("HIGH" is destructive like "high"). */
  lemma RiskColorIgnoresCase(level: string)
    ensures RiskColor(Some(level)) == RiskColor(Some(Text.Lower(level)))
  {
    Text.LowerIdempotent(level);
  }

  datatype TrendIcon = UpIcon | DownIcon | TargetIcon

  /** `getTrendIcon`: exact, case-sensitive comparison with "up" and "down". */
  function TrendIconOf(trend: Option<string>): (icon: TrendIcon)
    ensures icon == UpIcon <==> trend == Some("up")
    ensures icon == DownIcon <==> trend == Some("down")
  {
    if trend == Some("up") then UpIcon
    else if trend == Some("down") then DownIcon
    else TargetIcon
  }

  /** The two rules differ on letter case: "HIGH" is a high risk but "UP" is no upward
      trend. */
  lemma CaseRulesDiffer()
    ensures RiskColor(Some("HIGH")) == DestructiveTone
    ensures TrendIconOf(Some("UP")) == TargetIcon
  {
    var l := Text.Lower("HIGH");
    assert l[0] == 'h' && l[1] == 'i' && l[2] == 'g' && l[3] == 'h';
    assert l == "high";
  }
}
