/** The 3D-printing page: job costing, the add-job handler (a print job plus an
    automatic expense transaction), and revenue / cost / hours figures. */
module PrintingPage {
  import opened Wrappers
  import opened FinanceTypes
  import opened NumberInput
  import opened Ledger
  import opened FinanceContext

  /** The new-job form; every field but the name is a number input. */
  datatype JobForm = JobForm(
    name: string,
    filamentUsed: Option<real>,
    costPerGram: Option<real>,
    laborHours: Option<real>,
    hourlyRate: Option<real>,
    electricityCost: Option<real>)

  /** The form as first shown and after a job is added: 0.03 per gram, 25 per hour. */
  const BlankJobForm := JobForm("", None, Some(0.03), None, Some(25.0), None)

  /** `calculateCost` as written: filament and labour fields are read without a fallback,
      so a blank per-gram price or hourly rate makes the cost NaN. Electricity defaults to 0. */
  function CostAsWritten(f: JobForm): (r: Figure)
    ensures r.Num? <==> f.filamentUsed.Some? && f.costPerGram.Some? && f.laborHours.Some?
                        && f.hourlyRate.Some?
  {
    if f.filamentUsed.Some? && f.costPerGram.Some? && f.laborHours.Some? && f.hourlyRate.Some? then
      Num(f.filamentUsed.value * f.costPerGram.value + f.laborHours.value * f.hourlyRate.value
          + FloatOr(f.electricityCost, 0.0))
    else NaN
  }

  /** The handler's guard as written: name, filament used and labour hours only. */
  predicate AcceptedAsWritten(f: JobForm)
  {
    f.name != "" && f.filamentUsed.Some? && f.laborHours.Some?
  }

  /** A form the guard lets through whose cost is NaN: the hourly rate cleared. That NaN
      is stored as the job's total cost and as the amount of its expense transaction. */
  lemma BlankRateSlipsThrough()
    ensures var f := JobForm("Bracket", Some(100.0), Some(0.03), Some(2.0), None, None);
      AcceptedAsWritten(f) && CostAsWritten(f) == NaN
  {
  }

  /** The job the corrected handler records, or None when a required field is blank; the
      per-gram price and the hourly rate are required too. */
  function JobFromForm(f: JobForm, today: Date): (r: Option<PrintJob>)
    ensures r.None? <==> !AcceptedAsWritten(f) || f.costPerGram.None? || f.hourlyRate.None?
    ensures r.Some? ==> CostAsWritten(f) == Num(r.value.totalCost)
    ensures r.Some? ==> (r.value.filamentCost == f.filamentUsed.value * f.costPerGram.value
                         && r.value.totalCost == r.value.filamentCost
                            + r.value.laborHours * r.value.hourlyRate + r.value.electricityCost)
    ensures r.Some? && f.electricityCost.None? ==> r.value.electricityCost == 0.0
    ensures r.Some? ==> r.value.name == f.name && r.value.date == today
  {
    if !AcceptedAsWritten(f) || f.costPerGram.None? || f.hourlyRate.None? then None
    else
      var filamentCost := f.filamentUsed.value * f.costPerGram.value;
      var electricity := FloatOr(f.electricityCost, 0.0);
      Some(PrintJob("", f.name, f.filamentUsed.value, filamentCost, f.laborHours.value,
                    f.hourlyRate.value, electricity,
                    filamentCost + f.laborHours.value * f.hourlyRate.value + electricity, today))
  }

  /** The expense transaction booked for a job. */
  function JobExpense(j: PrintJob, today: Date): (t: Transaction)
    ensures t.kind == Expense && t.category == ThreeDPrinting && t.amount == j.totalCost
  {
    Transaction("", Expense, ThreeDPrinting, j.totalCost, "3D Print Job: " + j.name, today, "")
  }

  /** Σ totalCost over the jobs. */
  function JobsCost(js: seq<PrintJob>): real
  {
    if js == [] then 0.0 else js[0].totalCost + JobsCost(js[1..])
  }

  /** Σ laborHours over the jobs. */
  function JobsHours(js: seq<PrintJob>): real
  {
    if js == [] then 0.0 else js[0].laborHours + JobsHours(js[1..])
  }

  lemma {:induction false} JobsCostAppend(js: seq<PrintJob>, j: PrintJob)
    ensures JobsCost(js + [j]) == JobsCost(js) + j.totalCost
  {
    if js == [] {
      assert js + [j] == [j];
    } else {
      assert (js + [j])[1..] == js[1..] + [j];
      JobsCostAppend(js[1..], j);
    }
  }

  lemma {:induction false} JobsHoursAppend(js: seq<PrintJob>, j: PrintJob)
    ensures JobsHours(js + [j]) == JobsHours(js) + j.laborHours
  {
    if js == [] {
      assert js + [j] == [j];
    } else {
      assert (js + [j])[1..] == js[1..] + [j];
      JobsHoursAppend(js[1..], j);
    }
  }

  /** Revenue: income rows of the 3D-printing category; the same figure as the dashboard's. */
  function Revenue(ts: seq<Transaction>): (r: real)
    ensures r == SummaryOf(ts, [], []).printJobsRevenue
  {
    CategoryTypeTotal(ts, ThreeDPrinting, Income)
  }

  function Profit(ts: seq<Transaction>, js: seq<PrintJob>): real
  {
    Revenue(ts) - JobsCost(js)
  }

  /** `handleAddJob` (with the corrected guard): one job appended, then one expense
      transaction prepended carrying the job's total cost; the form is reset. */
  method HandleAddJob(store: FinanceStore, f: JobForm, jobId: string, txId: string,
                      createdAt: string, today: Date)
    returns (accepted: bool, next: JobForm)
    modifies store`printJobs, store`transactions
    ensures accepted <==> JobFromForm(f, today).Some?
    ensures !accepted ==> (store.printJobs == old(store.printJobs)
                           && store.transactions == old(store.transactions) && next == f)
    ensures accepted ==> (store.printJobs == old(store.printJobs) + [JobFromForm(f, today).value.(id := jobId)]
                          && store.transactions
                             == [JobExpense(JobFromForm(f, today).value, today).(id := txId, createdAt := createdAt)]
                                + old(store.transactions)
                          && next == BlankJobForm)
    ensures accepted ==> (JobsCost(store.printJobs) == JobsCost(old(store.printJobs)) + JobFromForm(f, today).value.totalCost
                          && JobsHours(store.printJobs) == JobsHours(old(store.printJobs)) + JobFromForm(f, today).value.laborHours)
  {
    var job := JobFromForm(f, today);
    if job.None? {
      return false, f;
    }
    store.AddPrintJob(job.value, jobId);
    JobsCostAppend(old(store.printJobs), job.value.(id := jobId));
    JobsHoursAppend(old(store.printJobs), job.value.(id := jobId));
    store.AddTransaction(JobExpense(job.value, today), txId, createdAt);
    return true, BlankJobForm;
  }

  /** A recorded job leaves revenue alone and lowers the page's profit by its cost;
      its expense row raises the dashboard's total expense by the same amount. */
  lemma JobBookkeeping(ts: seq<Transaction>, js: seq<PrintJob>, j: PrintJob, t: Transaction)
    requires t.kind == Expense && t.category == ThreeDPrinting && t.amount == j.totalCost
    ensures Revenue([t] + ts) == Revenue(ts)
    ensures Profit([t] + ts, js + [j]) == Profit(ts, js) - j.totalCost
    ensures TypeTotal([t] + ts, Expense) == TypeTotal(ts, Expense) + j.totalCost
  {
    JobsCostAppend(js, j);
    assert ([t] + ts)[0] == t;
    assert ([t] + ts)[1..] == ts;
    TotalCons(t, OfType(ts, Expense));
  }
}
