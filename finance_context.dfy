/** The in-memory finance store: six record lists, their add / delete / partial-update
    operations, and the dashboard summary computed from them. */
module FinanceContext {
  import opened Wrappers
  import opened FinanceTypes
  import opened Ledger

  function TransactionId(t: Transaction): string { t.id }
  function EmployeeId(e: Employee): string { e.id }
  function ComponentId(c: Component): string { c.id }
  function StudentId(s: Student): string { s.id }
  function PrintJobId(j: PrintJob): string { j.id }
  function ProjectId(p: Project): string { p.id }

  /** `list.filter(x => x.id !== id)`: the records whose id differs, in order. */
  function DropId<T>(s: seq<T>, id: string, idOf: T -> string): (r: seq<T>)
    ensures |r| <= |s|
    ensures forall i :: 0 <= i < |r| ==> r[i] in s && idOf(r[i]) != id
    ensures forall i :: 0 <= i < |s| && idOf(s[i]) != id ==> s[i] in r
  {
    if s == [] then []
    else if idOf(s[0]) != id then [s[0]] + DropId(s[1..], id, idOf)
    else DropId(s[1..], id, idOf)
  }

  /** Deleting an id that no record carries changes nothing. */
  lemma {:induction false} DropAbsent<T>(s: seq<T>, id: string, idOf: T -> string)
    requires forall i :: 0 <= i < |s| ==> idOf(s[i]) != id
    ensures DropId(s, id, idOf) == s
  {
    if s != [] {
      DropAbsent(s[1..], id, idOf);
    }
  }

  /** Deleting twice is deleting once. */
  lemma DropTwice<T>(s: seq<T>, id: string, idOf: T -> string)
    ensures DropId(DropId(s, id, idOf), id, idOf) == DropId(s, id, idOf)
  {
    DropAbsent(DropId(s, id, idOf), id, idOf);
  }

  /** Deleting keeps the survivors in their original order: it distributes over
      concatenation. */
  lemma {:induction false} DropConcat<T>(a: seq<T>, b: seq<T>, id: string, idOf: T -> string)
    ensures DropId(a + b, id, idOf) == DropId(a, id, idOf) + DropId(b, id, idOf)
  {
    if a == [] {
      assert a + b == b;
    } else {
      assert (a + b)[0] == a[0];
      assert (a + b)[1..] == a[1..] + b;
      DropConcat(a[1..], b, id, idOf);
    }
  }

  predicate UniqueIds<T>(s: seq<T>, idOf: T -> string)
  {
    forall i, j :: 0 <= i < j < |s| ==> idOf(s[i]) != idOf(s[j])
  }

  /** When ids are unique, deleting a present id removes exactly that one record. */
  lemma {:induction false} DropPresentUnique<T>(s: seq<T>, id: string, idOf: T -> string, k: nat)
    requires UniqueIds(s, idOf)
    requires k < |s| && idOf(s[k]) == id
    ensures DropId(s, id, idOf) == s[..k] + s[k+1..]
    ensures |DropId(s, id, idOf)| == |s| - 1
  {
    var rest := s[1..];
    if k == 0 {
      forall i | 0 <= i < |rest| ensures idOf(rest[i]) != id {
        assert rest[i] == s[i + 1];
      }
      DropAbsent(rest, id, idOf);
      assert s[..0] + s[1..] == rest;
    } else {
      forall i, j | 0 <= i < j < |rest| ensures idOf(rest[i]) != idOf(rest[j]) {
        assert rest[i] == s[i + 1] && rest[j] == s[j + 1];
      }
      assert rest[k - 1] == s[k];
      DropPresentUnique(rest, id, idOf, k - 1);
      assert idOf(s[0]) != id;
      assert DropId(s, id, idOf) == [s[0]] + DropId(rest, id, idOf);
      SpliceShift(s, k);
    }
  }

  /** Removing position `k > 0` from `s` is keeping the head and removing `k - 1` from
      the tail. */
  lemma SpliceShift<T>(s: seq<T>, k: nat)
    requires 0 < k < |s|
    ensures [s[0]] + (s[1..][..k - 1] + s[1..][k..]) == s[..k] + s[k + 1..]
  {
    assert s[1..][..k - 1] == s[1..k];
    assert s[1..][k..] == s[k + 1..];
    assert s[..k] == [s[0]] + s[1..k];
  }

  /** `Partial<Component>`: the keys present in an update. */
  datatype ComponentPatch = ComponentPatch(
    id: Option<string>,
    name: Option<string>,
    quantity: Option<int>,
    unitPrice: Option<real>,
    minStock: Option<int>,
    category: Option<string>)

  /** `Partial<Project>`: the keys present in an update. */
  datatype ProjectPatch = ProjectPatch(
    id: Option<string>,
    name: Option<string>,
    description: Option<string>,
    totalCost: Option<real>,
    totalIncome: Option<real>,
    hoursSpent: Option<real>,
    status: Option<ProjectStatus>,
    startDate: Option<Date>)

  /** `{ ...c, ...updates }`: supplied keys overwrite, the others keep their value. */
  function PatchComponent(c: Component, p: ComponentPatch): Component
  {
    Component(p.id.GetOr(c.id), p.name.GetOr(c.name), p.quantity.GetOr(c.quantity),
              p.unitPrice.GetOr(c.unitPrice), p.minStock.GetOr(c.minStock),
              p.category.GetOr(c.category))
  }

  function PatchProject(x: Project, p: ProjectPatch): Project
  {
    Project(p.id.GetOr(x.id), p.name.GetOr(x.name), p.description.GetOr(x.description),
            p.totalCost.GetOr(x.totalCost), p.totalIncome.GetOr(x.totalIncome),
            p.hoursSpent.GetOr(x.hoursSpent), p.status.GetOr(x.status),
            p.startDate.GetOr(x.startDate))
  }

  /** Patches with no key change nothing, and applying a patch twice is applying it once. */
  lemma PatchLaws(c: Component, x: Project, p: ComponentPatch, q: ProjectPatch)
    ensures PatchComponent(c, ComponentPatch(None, None, None, None, None, None)) == c
    ensures PatchComponent(PatchComponent(c, p), p) == PatchComponent(c, p)
    ensures PatchProject(x, ProjectPatch(None, None, None, None, None, None, None, None)) == x
    ensures PatchProject(PatchProject(x, q), q) == PatchProject(x, q)
  {
  }

  /** `list.map(c => c.id === id ? { ...c, ...updates } : c)`. */
  function UpdateComponents(s: seq<Component>, id: string, p: ComponentPatch): (r: seq<Component>)
    ensures |r| == |s|
    ensures forall i :: 0 <= i < |s| ==>
      r[i] == if s[i].id == id then PatchComponent(s[i], p) else s[i]
  {
    if s == [] then []
    else [if s[0].id == id then PatchComponent(s[0], p) else s[0]] + UpdateComponents(s[1..], id, p)
  }

  function UpdateProjects(s: seq<Project>, id: string, p: ProjectPatch): (r: seq<Project>)
    ensures |r| == |s|
    ensures forall i :: 0 <= i < |s| ==>
      r[i] == if s[i].id == id then PatchProject(s[i], p) else s[i]
  {
    if s == [] then []
    else [if s[0].id == id then PatchProject(s[0], p) else s[0]] + UpdateProjects(s[1..], id, p)
  }

  /** Updating an absent id changes nothing; updating twice with the same patch is
      updating once (a patch that renames the record moves it out of the second pass). */
  lemma UpdateComponentsLaws(s: seq<Component>, id: string, p: ComponentPatch)
    ensures (forall i :: 0 <= i < |s| ==> s[i].id != id) ==> UpdateComponents(s, id, p) == s
    ensures UpdateComponents(UpdateComponents(s, id, p), id, p) == UpdateComponents(s, id, p)
  {
    var once := UpdateComponents(s, id, p);
    var twice := UpdateComponents(once, id, p);
    forall i | 0 <= i < |s| ensures twice[i] == once[i] {
      PatchLaws(s[i], Project("", "", "", 0.0, 0.0, 0.0, Active, Date(0, 1, 1)), p,
                ProjectPatch(None, None, None, None, None, None, None, None));
    }
  }

  lemma UpdateProjectsLaws(s: seq<Project>, id: string, p: ProjectPatch)
    ensures (forall i :: 0 <= i < |s| ==> s[i].id != id) ==> UpdateProjects(s, id, p) == s
    ensures UpdateProjects(UpdateProjects(s, id, p), id, p) == UpdateProjects(s, id, p)
  {
    var once := UpdateProjects(s, id, p);
    var twice := UpdateProjects(once, id, p);
    forall i | 0 <= i < |s| ensures twice[i] == once[i] {
      PatchLaws(Component("", "", 0, 0.0, 0, ""), s[i],
                ComponentPatch(None, None, None, None, None, None), p);
    }
  }

  /** Σ quantity * unitPrice over the inventory. */
  function StockValue(cs: seq<Component>): real
  {
    if cs == [] then 0.0 else cs[0].quantity as real * cs[0].unitPrice + StockValue(cs[1..])
  }

  /** Σ (totalIncome - totalCost) over the projects. */
  function ProjectsProfit(ps: seq<Project>): real
  {
    if ps == [] then 0.0 else (ps[0].totalIncome - ps[0].totalCost) + ProjectsProfit(ps[1..])
  }

  lemma {:induction false} StockValueAppend(cs: seq<Component>, c: Component)
    ensures StockValue(cs + [c]) == StockValue(cs) + c.quantity as real * c.unitPrice
  {
    if cs == [] {
      assert cs + [c] == [c];
    } else {
      assert (cs + [c])[1..] == cs[1..] + [c];
      StockValueAppend(cs[1..], c);
    }
  }

  lemma {:induction false} ProjectsProfitAppend(ps: seq<Project>, p: Project)
    ensures ProjectsProfit(ps + [p]) == ProjectsProfit(ps) + (p.totalIncome - p.totalCost)
  {
    if ps == [] {
      assert ps + [p] == [p];
    } else {
      assert (ps + [p])[1..] == ps[1..] + [p];
      ProjectsProfitAppend(ps[1..], p);
    }
  }

  /** `getSummary`: eleven figures computed from the lists; the four others declared in
      the summary's type are left undefined. */
  function SummaryOf(ts: seq<Transaction>, cs: seq<Component>, ps: seq<Project>): (s: DashboardSummary)
    ensures s.profit == s.totalIncome - s.totalExpense
    ensures s.utilitiesTotal == Undefined && s.transferTotal == Undefined
    ensures s.monthlyIncome == Undefined && s.monthlyExpense == Undefined
  {
    var totalIncome := TypeTotal(ts, Income);
    var totalExpense := TypeTotal(ts, Expense);
    DashboardSummary(
      totalIncome,
      totalExpense,
      totalIncome - totalExpense,
      CategoryTotal(ts, Rent),
      CategoryTotal(ts, Salary),
      CategoryTotal(ts, Marketing),
      StockValue(cs),
      CategoryTypeTotal(ts, ThreeDPrinting, Income),
      CategoryTypeTotal(ts, Courses, Income),
      CategoryTypeTotal(ts, School, Income),
      ProjectsProfit(ps),
      Undefined, Undefined, Undefined, Undefined)
  }

  /** Income and expense together account for every transaction. */
  lemma SummaryCoversLedger(ts: seq<Transaction>, cs: seq<Component>, ps: seq<Project>)
    ensures SummaryOf(ts, cs, ps).totalIncome + SummaryOf(ts, cs, ps).totalExpense == Total(ts)
  {
    TypeSplit(ts);
  }

  /** Rent, salary and marketing totals net both types together, while the 3D-printing,
      courses and school figures count income rows only. */
  lemma SummaryCategoryPolicy(ts: seq<Transaction>, cs: seq<Component>, ps: seq<Project>)
    ensures SummaryOf(ts, cs, ps).rentTotal
         == CategoryTypeTotal(ts, Rent, Income) + CategoryTypeTotal(ts, Rent, Expense)
    ensures SummaryOf(ts, cs, ps).salaryTotal
         == CategoryTypeTotal(ts, Salary, Income) + CategoryTypeTotal(ts, Salary, Expense)
    ensures SummaryOf(ts, cs, ps).marketingTotal
         == CategoryTypeTotal(ts, Marketing, Income) + CategoryTypeTotal(ts, Marketing, Expense)
    ensures SummaryOf(ts, cs, ps).printJobsRevenue == CategoryTypeTotal(ts, ThreeDPrinting, Income)
    ensures SummaryOf(ts, cs, ps).coursesRevenue == CategoryTypeTotal(ts, Courses, Income)
    ensures SummaryOf(ts, cs, ps).schoolRevenue == CategoryTypeTotal(ts, School, Income)
  {
    CategorySplit(ts, Rent);
    CategorySplit(ts, Salary);
    CategorySplit(ts, Marketing);
  }

  /** The two policies really differ: one income row of 100 and one expense row of 400
      give a rent total of 500 but a courses revenue of 100. */
  lemma SummaryAsymmetryExample()
    ensures var d := Date(2024, 12, 1);
      var rent := [Transaction("a", Income, Rent, 100.0, "", d, ""),
                   Transaction("b", Expense, Rent, 400.0, "", d, "")];
      var courses := [Transaction("a", Income, Courses, 100.0, "", d, ""),
                      Transaction("b", Expense, Courses, 400.0, "", d, "")];
      SummaryOf(rent, [], []).rentTotal == 500.0
      && SummaryOf(courses, [], []).coursesRevenue == 100.0
  {
    var d := Date(2024, 12, 1);
    var r0 := Transaction("a", Income, Rent, 100.0, "", d, "");
    var r1 := Transaction("b", Expense, Rent, 400.0, "", d, "");
    var c0 := Transaction("a", Income, Courses, 100.0, "", d, "");
    var c1 := Transaction("b", Expense, Courses, 400.0, "", d, "");
    assert [r0, r1][1..] == [r1];
    assert [c0, c1][1..] == [c1];
    assert OfCategory([r1], Rent) == [r1] + OfCategory([], Rent);
    assert OfCategory([r0, r1], Rent) == [r0, r1];
    TotalCons(r0, [r1]);
    TotalCons(r1, []);
    assert OfCategory([c0, c1], Courses) == [c0, c1];
    assert OfType([c0, c1], Income) == [c0] + OfType([c1], Income);
    TotalCons(c0, []);
  }

  /** Empty lists give an all-zero summary. */
  lemma SummaryOfEmpty()
    ensures var s := SummaryOf([], [], []);
      s.totalIncome == 0.0 && s.totalExpense == 0.0 && s.profit == 0.0
      && s.rentTotal == 0.0 && s.salaryTotal == 0.0 && s.marketingTotal == 0.0
      && s.stockValue == 0.0 && s.printJobsRevenue == 0.0 && s.coursesRevenue == 0.0
      && s.schoolRevenue == 0.0 && s.projectsProfit == 0.0
  {
  }

  /** Adding a transaction moves exactly one of the two type totals, by its amount. */
  lemma SummaryAfterAdd(t: Transaction, ts: seq<Transaction>, cs: seq<Component>, ps: seq<Project>)
    ensures var before := SummaryOf(ts, cs, ps);
      var after := SummaryOf([t] + ts, cs, ps);
      after.totalIncome == before.totalIncome + (if t.kind == Income then t.amount else 0.0)
      && after.totalExpense == before.totalExpense + (if t.kind == Expense then t.amount else 0.0)
      && after.stockValue == before.stockValue && after.projectsProfit == before.projectsProfit
  {
    assert ([t] + ts)[0] == t;
    assert ([t] + ts)[1..] == ts;
    TotalCons(t, OfType(ts, t.kind));
  }

  const SampleTransactions: seq<Transaction> := [
    Transaction("1", Expense, Rent, 2500.0, "Office Rent - December", Date(2024, 12, 1), "2024-12-01"),
    Transaction("2", Expense, Salary, 8000.0, "Monthly Payroll", Date(2024, 12, 1), "2024-12-01"),
    Transaction("3", Expense, Marketing, 1500.0, "Google Ads Campaign", Date(2024, 12, 5), "2024-12-05"),
    Transaction("4", Income, Courses, 4500.0, "Robotics Workshop Fees", Date(2024, 12, 3), "2024-12-03"),
    Transaction("5", Income, ThreeDPrinting, 800.0, "3D Print Orders", Date(2024, 12, 7), "2024-12-07"),
    Transaction("6", Income, School, 3200.0, "School Program Fees", Date(2024, 12, 10), "2024-12-10"),
    Transaction("7", Expense, Stock, 650.0, "Arduino Components", Date(2024, 12, 8), "2024-12-08"),
    Transaction("8", Income, Projects, 2000.0, "Custom Automation Project", Date(2024, 12, 12), "2024-12-12")
  ]

  const SampleEmployees: seq<Employee> := [
    Employee("1", "John Smith", "Lead Developer", 5000.0, Date(2023, 1, 15)),
    Employee("2", "Sarah Johnson", "Instructor", 3000.0, Date(2023, 6, 1))
  ]

  const SampleComponents: seq<Component> := [
    Component("1", "Arduino Uno R3", 25, 22.0, 10, "Microcontrollers"),
    Component("2", "ESP32 DevKit", 15, 12.0, 8, "Microcontrollers"),
    Component("3", "Servo Motor SG90", 50, 4.0, 20, "Motors"),
    Component("4", "Ultrasonic Sensor", 8, 3.0, 15, "Sensors"),
    Component("5", "LED Pack (100pcs)", 12, 8.0, 5, "Electronics")
  ]

  const SampleStudents: seq<Student> := [
    Student("1", "Alex Chen", "alex@example.com", "Robotics Fundamentals", "B001", Date(2024, 9, 1), Paid),
    Student("2", "Maria Garcia", "maria@example.com", "Arduino Workshop", "B002", Date(2024, 10, 15), Paid),
    Student("3", "James Wilson", "james@example.com", "Robotics Fundamentals", "B001", Date(2024, 9, 1), Pending)
  ]

  const SamplePrintJobs: seq<PrintJob> := [
    PrintJob("1", "Custom Enclosure", 150.0, 4.5, 2.0, 25.0, 1.5, 56.0, Date(2024, 12, 5)),
    PrintJob("2", "Robot Arm Parts", 300.0, 9.0, 5.0, 25.0, 3.0, 137.0, Date(2024, 12, 8))
  ]

  const SampleProjects: seq<Project> := [
    Project("1", "Home Automation System", "Smart home controller with sensors", 450.0, 1200.0, 40.0, Completed, Date(2024, 10, 1)),
    Project("2", "Industrial Monitoring", "Factory sensor network", 800.0, 0.0, 25.0, Active, Date(2024, 11, 15))
  ]

  /** The first two sample components are worth 25 * 22 + 15 * 12 = 730, and the whole
      sample inventory 1050. */
  lemma SampleStockValue()
    ensures StockValue(SampleComponents[..2]) == 730.0
    ensures StockValue(SampleComponents) == 1050.0
  {
    var cs := SampleComponents;
    assert cs[..2][1..] == cs[1..2];
    assert cs[1..2][1..] == [];
    assert StockValue(cs[1..2]) == 180.0;
    assert cs[1..][1..] == cs[2..];
    assert cs[2..][1..] == cs[3..];
    assert cs[3..][1..] == cs[4..];
    assert cs[4..][1..] == [];
  }

  /** The provider: six lists that the operations replace wholesale. */
  class FinanceStore {
    var transactions: seq<Transaction>
    var employees: seq<Employee>
    var components: seq<Component>
    var students: seq<Student>
    var printJobs: seq<PrintJob>
    var projects: seq<Project>

    /** The provider starts from the sample data. */
    constructor ()
      ensures transactions == SampleTransactions && employees == SampleEmployees
      ensures components == SampleComponents && students == SampleStudents
      ensures printJobs == SamplePrintJobs && projects == SampleProjects
    {
      transactions := SampleTransactions;
      employees := SampleEmployees;
      components := SampleComponents;
      students := SampleStudents;
      printJobs := SamplePrintJobs;
      projects := SampleProjects;
    }

    /** The summary of the current lists; reading it changes nothing. */
    function Summary(): (s: DashboardSummary)
      reads this
      ensures s == SummaryOf(transactions, components, projects)
    {
      SummaryOf(transactions, components, projects)
    }

    /** The new transaction, with a fresh id and creation time, goes first. */
    method AddTransaction(t: Transaction, id: string, createdAt: string)
      modifies this`transactions
      ensures transactions == [t.(id := id, createdAt := createdAt)] + old(transactions)
    {
      transactions := [t.(id := id, createdAt := createdAt)] + transactions;
    }

    method DeleteTransaction(id: string)
      modifies this`transactions
      ensures transactions == DropId(old(transactions), id, TransactionId)
    {
      transactions := DropId(transactions, id, TransactionId);
    }

    /** Employees, components, students, print jobs and projects are appended. */
    method AddEmployee(e: Employee, id: string)
      modifies this`employees
      ensures employees == old(employees) + [e.(id := id)]
    {
      employees := employees + [e.(id := id)];
    }

    method DeleteEmployee(id: string)
      modifies this`employees
      ensures employees == DropId(old(employees), id, EmployeeId)
    {
      employees := DropId(employees, id, EmployeeId);
    }

    method AddComponent(c: Component, id: string)
      modifies this`components
      ensures components == old(components) + [c.(id := id)]
    {
      components := components + [c.(id := id)];
    }

    method UpdateComponent(id: string, updates: ComponentPatch)
      modifies this`components
      ensures components == UpdateComponents(old(components), id, updates)
    {
      components := UpdateComponents(components, id, updates);
    }

    method DeleteComponent(id: string)
      modifies this`components
      ensures components == DropId(old(components), id, ComponentId)
    {
      components := DropId(components, id, ComponentId);
    }

    method AddStudent(s: Student, id: string)
      modifies this`students
      ensures students == old(students) + [s.(id := id)]
    {
      students := students + [s.(id := id)];
    }

    method DeleteStudent(id: string)
      modifies this`students
      ensures students == DropId(old(students), id, StudentId)
    {
      students := DropId(students, id, StudentId);
    }

    method AddPrintJob(j: PrintJob, id: string)
      modifies this`printJobs
      ensures printJobs == old(printJobs) + [j.(id := id)]
    {
      printJobs := printJobs + [j.(id := id)];
    }

    method DeletePrintJob(id: string)
      modifies this`printJobs
      ensures printJobs == DropId(old(printJobs), id, PrintJobId)
    {
      printJobs := DropId(printJobs, id, PrintJobId);
    }

    method AddProject(p: Project, id: string)
      modifies this`projects
      ensures projects == old(projects) + [p.(id := id)]
    {
      projects := projects + [p.(id := id)];
    }

    method UpdateProject(id: string, updates: ProjectPatch)
      modifies this`projects
      ensures projects == UpdateProjects(old(projects), id, updates)
    {
      projects := UpdateProjects(projects, id, updates);
    }

    method DeleteProject(id: string)
      modifies this`projects
      ensures projects == DropId(old(projects), id, ProjectId)
    {
      projects := DropId(projects, id, ProjectId);
    }
  }
}
