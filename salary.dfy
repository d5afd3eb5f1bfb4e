/** The salary page: salary paid, the monthly payroll of the staff list, and the
    add-employee form. */
module SalaryPage {
  import opened Wrappers
  import opened FinanceTypes
  import opened Ledger
  import FinanceContext

  /** "Total Salary Paid": salary rows of type expense. */
  function TotalSalaryPaid(ts: seq<Transaction>): real
  {
    CategoryTypeTotal(ts, Salary, Expense)
  }

  /** The dashboard's salary total also counts salary-related income rows. */
  lemma SalaryMatchesDashboard(ts: seq<Transaction>, cs: seq<Component>, ps: seq<Project>)
    ensures TotalSalaryPaid(ts) + CategoryTypeTotal(ts, Salary, Income)
         == FinanceContext.SummaryOf(ts, cs, ps).salaryTotal
  {
    CategorySplit(ts, Salary);
  }

  /** "Monthly Payroll": Σ salary over the employees. */
  function Payroll(es: seq<Employee>): real
  {
    if es == [] then 0.0 else es[0].salary + Payroll(es[1..])
  }

  lemma {:induction false} PayrollAppend(es: seq<Employee>, e: Employee)
    ensures Payroll(es + [e]) == Payroll(es) + e.salary
  {
    if es == [] {
      assert es + [e] == [e];
    } else {
      assert (es + [e])[1..] == es[1..] + [e];
      PayrollAppend(es[1..], e);
    }
  }

  /** Removing an employee whose id is unique lowers the payroll by that salary. */
  lemma {:induction false} PayrollAfterDelete(es: seq<Employee>, k: nat)
    requires k < |es| && FinanceContext.UniqueIds(es, FinanceContext.EmployeeId)
    ensures Payroll(FinanceContext.DropId(es, es[k].id, FinanceContext.EmployeeId))
         == Payroll(es) - es[k].salary
  {
    var before, after := es[..k], es[k + 1..];
    FinanceContext.DropPresentUnique(es, es[k].id, FinanceContext.EmployeeId, k);
    PayrollConcat(before, after);
    PayrollConcat(before, es[k..]);
    assert es == before + es[k..];
    assert es[k..][0] == es[k] && es[k..][1..] == after;
    assert Payroll(es[k..]) == es[k].salary + Payroll(after);
  }

  lemma {:induction false} PayrollConcat(a: seq<Employee>, b: seq<Employee>)
    ensures Payroll(a + b) == Payroll(a) + Payroll(b)
  {
    if a == [] {
      assert a + b == b;
    } else {
      assert (a + b)[1..] == a[1..] + b;
      PayrollConcat(a[1..], b);
    }
  }

  /** The add-employee form; the salary is a number input, the start date a date
      input that opens on today. */
  datatype EmployeeForm = EmployeeForm(
    name: string, position: string, salary: Option<real>, startDate: Date)

  function BlankEmployeeForm(today: Date): EmployeeForm
  {
    EmployeeForm("", "", None, today)
  }

  /** The employee `handleAddEmployee` adds, or None when the name or the salary field is
      blank. The salary is tested as text, so a salary of 0 is accepted. */
  function EmployeeFromForm(f: EmployeeForm): (r: Option<Employee>)
    ensures r.None? <==> f.name == "" || f.salary.None?
    ensures r.Some? ==> (r.value.name == f.name && r.value.position == f.position
                         && r.value.salary == f.salary.value && r.value.startDate == f.startDate)
  {
    if f.name == "" || f.salary.None? then None
    else Some(Employee("", f.name, f.position, f.salary.value, f.startDate))
  }

  /** `handleAddEmployee`: a refused form changes nothing; an accepted one appends the
      employee, raises the payroll by the salary, and resets the form to today. */
  method HandleAddEmployee(store: FinanceContext.FinanceStore, f: EmployeeForm, id: string, today: Date)
    returns (accepted: bool, next: EmployeeForm)
    modifies store`employees
    ensures accepted <==> EmployeeFromForm(f).Some?
    ensures !accepted ==> store.employees == old(store.employees) && next == f
    ensures accepted ==> store.employees == old(store.employees) + [EmployeeFromForm(f).value.(id := id)]
    ensures accepted ==> Payroll(store.employees) == Payroll(old(store.employees)) + f.salary.value
    ensures accepted ==> next == BlankEmployeeForm(today)
  {
    var e := EmployeeFromForm(f);
    if e.None? {
      return false, f;
    }
    store.AddEmployee(e.value, id);
    PayrollAppend(old(store.employees), e.value.(id := id));
    return true, BlankEmployeeForm(today);
  }
}
