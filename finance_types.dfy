/** The record shapes of the finance dashboard: transactions and the five other
    kinds of records the in-memory store keeps, and the dashboard summary. */
module FinanceTypes {
  import opened Wrappers

  /** A transaction is either money coming in or money going out. */
  datatype TxType = Income | Expense

  /** The twelve category tags a transaction may carry. */
  datatype Category =
    | Rent | Salary | Marketing | General | Stock | ThreeDPrinting
    | Courses | School | Projects | Utilities | Transfer | Other

  /** The wire tag of a category, as stored in a transaction. */
  function CategoryTag(c: Category): (tag: string)
    ensures |tag| > 0
  {
    match c
    case Rent => "rent"
    case Salary => "salary"
    case Marketing => "marketing"
    case General => "general"
    case Stock => "stock"
    case ThreeDPrinting => "3d-printing"
    case Courses => "courses"
    case School => "school"
    case Projects => "projects"
    case Utilities => "utilities"
    case Transfer => "transfer"
    case Other => "other"
  }

  /** Reads a category tag back; any other string is not a category. */
  function ParseCategory(tag: string): (c: Option<Category>)
  {
    if tag == "rent" then Some(Rent)
    else if tag == "salary" then Some(Salary)
    else if tag == "marketing" then Some(Marketing)
    else if tag == "general" then Some(General)
    else if tag == "stock" then Some(Stock)
    else if tag == "3d-printing" then Some(ThreeDPrinting)
    else if tag == "courses" then Some(Courses)
    else if tag == "school" then Some(School)
    else if tag == "projects" then Some(Projects)
    else if tag == "utilities" then Some(Utilities)
    else if tag == "transfer" then Some(Transfer)
    else if tag == "other" then Some(Other)
    else None
  }

  /** Every category, in declaration order. */
  const AllCategories: seq<Category> :=
    [Rent, Salary, Marketing, General, Stock, ThreeDPrinting,
     Courses, School, Projects, Utilities, Transfer, Other]

  /** The tags and the categories are in one-to-one correspondence. */
  lemma CategoryTagRoundTrip(c: Category, tag: string)
    ensures ParseCategory(CategoryTag(c)) == Some(c)
    ensures ParseCategory(tag) == Some(c) ==> CategoryTag(c) == tag
  {
    match c
    case Rent =>
    case Salary =>
    case Marketing =>
    case General =>
    case Stock =>
    case ThreeDPrinting =>
    case Courses =>
    case School =>
    case Projects =>
    case Utilities =>
    case Transfer =>
    case Other =>
  }

  /** There are exactly twelve categories, `utilities` and `transfer` among them. */
  lemma TwelveCategories()
    ensures |AllCategories| == 12
    ensures forall c: Category :: c in AllCategories
    ensures forall i, j :: 0 <= i < j < |AllCategories| ==> AllCategories[i] != AllCategories[j]
    ensures Utilities in AllCategories && Transfer in AllCategories
  {
    forall c: Category ensures c in AllCategories {
      match c
      case Rent => assert AllCategories[0] == c;
      case Salary => assert AllCategories[1] == c;
      case Marketing => assert AllCategories[2] == c;
      case General => assert AllCategories[3] == c;
      case Stock => assert AllCategories[4] == c;
      case ThreeDPrinting => assert AllCategories[5] == c;
      case Courses => assert AllCategories[6] == c;
      case School => assert AllCategories[7] == c;
      case Projects => assert AllCategories[8] == c;
      case Utilities => assert AllCategories[9] == c;
      case Transfer => assert AllCategories[10] == c;
      case Other => assert AllCategories[11] == c;
    }
  }

  /** A calendar date in ISO form `YYYY-MM-DD`; `month` counts from 1. */
  datatype Date = Date(year: int, month: int, day: int) {
    predicate Valid() { 1 <= month <= 12 && 1 <= day <= 31 }
  }

  datatype Transaction = Transaction(
    id: string,
    kind: TxType,
    category: Category,
    amount: real,
    description: string,
    date: Date,
    createdAt: string)

  datatype Employee = Employee(
    id: string,
    name: string,
    position: string,
    salary: real,
    startDate: Date)

  /** An inventory item; its value is `quantity * unitPrice`. */
  datatype Component = Component(
    id: string,
    name: string,
    quantity: int,
    unitPrice: real,
    minStock: int,
    category: string)

  datatype PaymentStatus = Paid | Pending | Overdue

  datatype Student = Student(
    id: string,
    name: string,
    email: string,
    course: string,
    batchId: string,
    enrollmentDate: Date,
    paymentStatus: PaymentStatus)

  datatype PrintJob = PrintJob(
    id: string,
    name: string,
    filamentUsed: real,
    filamentCost: real,
    laborHours: real,
    hourlyRate: real,
    electricityCost: real,
    totalCost: real,
    date: Date)

  datatype ProjectStatus = Active | Completed | Paused

  datatype Project = Project(
    id: string,
    name: string,
    description: string,
    totalCost: real,
    totalIncome: real,
    hoursSpent: real,
    status: ProjectStatus,
    startDate: Date)

  /** A number as a page reads it off an object: a value, `undefined` (the key
      is missing) or `NaN` (arithmetic on `undefined`). */
  datatype Figure = Num(value: real) | Undefined | NaN

  /** JavaScript subtraction on figures: defined only when both sides are numbers. */
  function Minus(a: Figure, b: Figure): (r: Figure)
    ensures r.Num? <==> a.Num? && b.Num?
    ensures r.Num? ==> r.value + b.value == a.value
  {
    if a.Num? && b.Num? then Num(a.value - b.value) else NaN
  }

  /** The dashboard's headline figures. The last four fields are declared in the
      summary's type but the aggregator never fills them in. */
  datatype DashboardSummary = DashboardSummary(
    totalIncome: real,
    totalExpense: real,
    profit: real,
    rentTotal: real,
    salaryTotal: real,
    marketingTotal: real,
    stockValue: real,
    printJobsRevenue: real,
    coursesRevenue: real,
    schoolRevenue: real,
    projectsProfit: real,
    utilitiesTotal: Figure,
    transferTotal: Figure,
    monthlyIncome: Figure,
    monthlyExpense: Figure)
}
