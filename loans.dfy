/** Loans and their instalments (EMIs): the add-loan form with its EMI calculator, the
    pay-instalment state machine, and the debt figures shown on the page. */
module Loans {
  import opened Wrappers
  import FinanceTypes
  import opened NumberInput
  import FinanceContext

  datatype LoanStatus = Active | Completed

  datatype Loan = Loan(
    id: string,
    name: string,
    principal: real,
    interestRate: real,
    totalEmiCount: int,
    paidEmiCount: int,
    emiAmount: real,
    startDate: FinanceTypes.Date,
    lender: string,
    notes: string,
    status: LoanStatus)

  function LoanId(l: Loan): string { l.id }

  /** The add-loan form. Numeric fields already hold their parsed values. */
  datatype LoanForm = LoanForm(
    name: string,
    principal: real,
    interestRate: real,
    totalEmiCount: int,
    emiAmount: real,
    startDate: FinanceTypes.Date,
    lender: string,
    notes: string)

  /** The form as first shown and after a loan is added: twelve instalments. */
  function BlankLoanForm(today: FinanceTypes.Date): (f: LoanForm)
    ensures f.totalEmiCount == 12 && f.principal == 0.0 && f.interestRate == 0.0
    ensures f.emiAmount == 0.0 && f.name == "" && f.startDate == today
  {
    LoanForm("", 0.0, 0.0, 12, 0.0, today, "", "")
  }

  /** What the "Total EMIs" field stores: the integer typed, or 12 when it is blank or 0. */
  function EmiCountInput(v: Option<real>): (n: int)
    ensures n == 12 || (v.Some? && n == Truncate(v.value))
    ensures n != 0
  {
    IntOr(v, 12)
  }

  /** The monthly rate used by the calculator: yearly percent / 100 / 12. */
  function MonthlyRate(yearlyPercent: real): real
  {
    yearlyPercent / 100.0 / 12.0
  }

  /** The EMI the calculator writes into the form, or None when it leaves the form
      alone (principal or count not positive). With a zero rate the principal is split
      evenly; otherwise the rounded annuity payment, supplied as `amortised`. */
  function CalculatedEmi(f: LoanForm, amortised: real): (r: Option<real>)
    ensures r.Some? <==> f.principal > 0.0 && f.totalEmiCount > 0
    ensures r.Some? && f.interestRate == 0.0 ==> r.value * f.totalEmiCount as real == f.principal
    ensures r.Some? && f.interestRate != 0.0 ==> r.value == amortised
  {
    if f.principal > 0.0 && f.totalEmiCount > 0 then
      if MonthlyRate(f.interestRate) == 0.0 then Some(f.principal / f.totalEmiCount as real)
      else Some(amortised)
    else None
  }

  /** The record `handleAddLoan` inserts: nothing paid yet, status active. */
  function NewLoan(f: LoanForm, id: string): (l: Loan)
    ensures l.paidEmiCount == 0 && l.status == Active
    ensures l.principal == f.principal && l.totalEmiCount == f.totalEmiCount
    ensures l.emiAmount == f.emiAmount
  {
    Loan(id, f.name, f.principal, f.interestRate, f.totalEmiCount, 0, f.emiAmount,
         f.startDate, f.lender, f.notes, Active)
  }

  /** Paying one instalment: refused once every instalment is paid; otherwise one more
      is paid and the loan completes exactly when the paid count reaches the total. */
  function AfterPayment(l: Loan): (r: Option<Loan>)
    ensures r.None? <==> l.paidEmiCount >= l.totalEmiCount
    ensures r.Some? ==> r.value.paidEmiCount == l.paidEmiCount + 1
    ensures r.Some? ==> (r.value.status == Completed <==> r.value.paidEmiCount >= l.totalEmiCount)
    ensures r.Some? ==> r.value == l.(paidEmiCount := r.value.paidEmiCount, status := r.value.status)
  {
    if l.paidEmiCount >= l.totalEmiCount then None
    else
      var paid := l.paidEmiCount + 1;
      Some(l.(paidEmiCount := paid, status := if paid >= l.totalEmiCount then Completed else Active))
  }

  /** Pays `k` instalments in a row, stopping at the first refusal. */
  function PayTimes(l: Loan, k: nat): Option<Loan>
    decreases k
  {
    if k == 0 then Some(l)
    else match AfterPayment(l)
      case None => None
      case Some(next) => PayTimes(next, k - 1)
  }

  /** A new loan of `n` instalments stays active through its first n - 1 payments,
      completes on the n-th, and refuses the next. */
  lemma {:induction false} PaymentSchedule(l: Loan, k: nat)
    requires 0 <= l.paidEmiCount && l.paidEmiCount + k <= l.totalEmiCount
    ensures PayTimes(l, k).Some?
    ensures PayTimes(l, k).value.paidEmiCount == l.paidEmiCount + k
    ensures k > 0 ==> (PayTimes(l, k).value.status == Completed
                       <==> l.paidEmiCount + k == l.totalEmiCount)
    ensures l.paidEmiCount + k == l.totalEmiCount ==> AfterPayment(PayTimes(l, k).value).None?
    decreases k
  {
    if k > 0 {
      var next := AfterPayment(l).value;
      PaymentSchedule(next, k - 1);
    }
  }

  /** The stored loan list after a payment: the row with that id gets the new count and
      status. */
  function RecordPayment(loans: seq<Loan>, id: string, paid: int, status: LoanStatus): (r: seq<Loan>)
    ensures |r| == |loans|
    ensures forall i :: 0 <= i < |loans| ==>
      r[i] == if loans[i].id == id then loans[i].(paidEmiCount := paid, status := status) else loans[i]
  {
    if loans == [] then []
    else [if loans[0].id == id then loans[0].(paidEmiCount := paid, status := status) else loans[0]]
         + RecordPayment(loans[1..], id, paid, status)
  }

  /** Amount still owed on one loan. */
  function Remaining(l: Loan): real
  {
    (l.totalEmiCount - l.paidEmiCount) as real * l.emiAmount
  }

  function TotalPayable(l: Loan): real
  {
    l.totalEmiCount as real * l.emiAmount
  }

  /** Interest over the loan's life: what is payable beyond the principal. */
  function InterestPaid(l: Loan): real
  {
    TotalPayable(l) - l.principal
  }

  /** A zero-rate EMI repays exactly the principal: no interest, and before any payment
      the remaining amount is the principal. */
  lemma ZeroRateLoan(f: LoanForm, amortised: real, id: string)
    requires f.interestRate == 0.0 && CalculatedEmi(f, amortised).Some?
    ensures var l := NewLoan(f.(emiAmount := CalculatedEmi(f, amortised).value), id);
      TotalPayable(l) == l.principal && InterestPaid(l) == 0.0 && Remaining(l) == l.principal
  {
  }

  /** Σ remaining over all loans. */
  function TotalDebt(loans: seq<Loan>): real
  {
    if loans == [] then 0.0 else Remaining(loans[0]) + TotalDebt(loans[1..])
  }

  function TotalPrincipal(loans: seq<Loan>): real
  {
    if loans == [] then 0.0 else loans[0].principal + TotalPrincipal(loans[1..])
  }

  /** Payments never move the principal card: recording one keeps the total principal. */
  lemma {:induction false} PaymentKeepsPrincipal(loans: seq<Loan>, id: string, paid: int, status: LoanStatus)
    ensures TotalPrincipal(RecordPayment(loans, id, paid, status)) == TotalPrincipal(loans)
  {
    if loans != [] {
      var after := RecordPayment(loans, id, paid, status);
      assert after[1..] == RecordPayment(loans[1..], id, paid, status);
      PaymentKeepsPrincipal(loans[1..], id, paid, status);
    }
  }

  /** The active loans, in order. */
  function ActiveLoans(loans: seq<Loan>): (r: seq<Loan>)
    ensures |r| <= |loans|
    ensures forall i :: 0 <= i < |r| ==> r[i].status == Active && r[i] in loans
    ensures forall i :: 0 <= i < |loans| && loans[i].status == Active ==> loans[i] in r
  {
    if loans == [] then []
    else if loans[0].status == Active then [loans[0]] + ActiveLoans(loans[1..])
    else ActiveLoans(loans[1..])
  }

  /** Σ EMI over the active loans only. */
  function MonthlyEmi(loans: seq<Loan>): real
  {
    if loans == [] then 0.0
    else (if loans[0].status == Active then loans[0].emiAmount else 0.0) + MonthlyEmi(loans[1..])
  }

  /** `monthlyEMI` is the EMI sum over exactly the loans `activeLoans` counts. */
  lemma {:induction false} MonthlyEmiOverActive(loans: seq<Loan>)
    ensures MonthlyEmi(loans) == MonthlyEmi(ActiveLoans(loans))
    ensures MonthlyEmi(ActiveLoans(loans)) == EmiSum(ActiveLoans(loans))
  {
    if loans != [] {
      MonthlyEmiOverActive(loans[1..]);
      var rest := ActiveLoans(loans[1..]);
      if loans[0].status == Active {
        assert ([loans[0]] + rest)[1..] == rest;
      }
    }
  }

  function EmiSum(loans: seq<Loan>): real
  {
    if loans == [] then 0.0 else loans[0].emiAmount + EmiSum(loans[1..])
  }

  /** Recording one payment on a loan whose id is unique in the list lowers the debt by
      exactly one EMI. */
  lemma {:induction false} PaymentLowersDebt(loans: seq<Loan>, k: nat)
    requires k < |loans| && FinanceContext.UniqueIds(loans, LoanId)
    requires AfterPayment(loans[k]).Some?
    ensures var next := AfterPayment(loans[k]).value;
      TotalDebt(RecordPayment(loans, loans[k].id, next.paidEmiCount, next.status))
      == TotalDebt(loans) - loans[k].emiAmount
  {
    var next := AfterPayment(loans[k]).value;
    var after := RecordPayment(loans, loans[k].id, next.paidEmiCount, next.status);
    if k == 0 {
      RecordPaymentAbsent(loans[1..], loans[0].id, next.paidEmiCount, next.status);
      assert after[1..] == RecordPayment(loans[1..], loans[0].id, next.paidEmiCount, next.status);
    } else {
      assert loans[1..][k - 1] == loans[k];
      PaymentLowersDebt(loans[1..], k - 1);
      assert after[1..] == RecordPayment(loans[1..], loans[k].id, next.paidEmiCount, next.status);
      assert after[0] == loans[0];
    }
  }

  lemma {:induction false} RecordPaymentAbsent(loans: seq<Loan>, id: string, paid: int, status: LoanStatus)
    requires forall i :: 0 <= i < |loans| ==> loans[i].id != id
    ensures RecordPayment(loans, id, paid, status) == loans
  {
    if loans != [] {
      RecordPaymentAbsent(loans[1..], id, paid, status);
    }
  }

  /** Outcome of pressing "Pay EMI". */
  datatype PayOutcome = AllPaid | Recorded | Failed

  /** The loans page: the loans as last fetched, and the add-loan form. */
  class LoansPage {
    var loans: seq<Loan>
    var form: LoanForm

    constructor (today: FinanceTypes.Date)
      ensures loans == [] && form == BlankLoanForm(today)
    {
      loans := [];
      form := BlankLoanForm(today);
    }

    /** The calculator button: writes the EMI into the form when principal and count
        are positive, and leaves the form alone otherwise. */
    method CalculateEmi(amortised: real)
      modifies this`form
      ensures CalculatedEmi(old(form), amortised).None? ==> form == old(form)
      ensures CalculatedEmi(old(form), amortised).Some? ==>
        form == old(form).(emiAmount := CalculatedEmi(old(form), amortised).value)
    {
      var emi := CalculatedEmi(form, amortised);
      if emi.Some? {
        form := form.(emiAmount := emi.value);
      }
    }

    /** `handleAddLoan`: on a successful insert the new loan heads the refetched list
        (newest first) and the form is reset; on failure nothing changes. */
    method AddLoan(id: string, inserted: bool, today: FinanceTypes.Date)
      modifies this
      ensures inserted ==> loans == [NewLoan(old(form), id)] + old(loans) && form == BlankLoanForm(today)
      ensures inserted ==> TotalPrincipal(loans) == TotalPrincipal(old(loans)) + old(form).principal
      ensures !inserted ==> loans == old(loans) && form == old(form)
    {
      if inserted {
        loans := [NewLoan(form, id)] + loans;
        form := BlankLoanForm(today);
      }
    }

    /** `handlePayEMI` for the loan as the page shows it: refused when it is fully
        paid; otherwise the stored row gets the next count and status, if the update
        succeeds. */
    method PayEmi(loan: Loan, updated: bool) returns (outcome: PayOutcome)
      modifies this`loans
      ensures outcome == AllPaid <==> loan.paidEmiCount >= loan.totalEmiCount
      ensures outcome != Recorded ==> loans == old(loans)
      ensures outcome == Recorded <==> AfterPayment(loan).Some? && updated
      ensures outcome == Recorded ==>
        loans == RecordPayment(old(loans), loan.id, loan.paidEmiCount + 1,
                               AfterPayment(loan).value.status)
    {
      var next := AfterPayment(loan);
      if next.None? {
        return AllPaid;
      }
      if !updated {
        return Failed;
      }
      loans := RecordPayment(loans, loan.id, next.value.paidEmiCount, next.value.status);
      return Recorded;
    }

    method DeleteLoan(id: string, deleted: bool)
      modifies this`loans
      ensures loans == if deleted then FinanceContext.DropId(old(loans), id, LoanId) else old(loans)
    {
      if deleted {
        loans := FinanceContext.DropId(loans, id, LoanId);
      }
    }
  }
}
