/** The courses page: course revenue, the paid / pending split of the students, and the
    enrolment form. */
module CoursesPage {
  import opened Wrappers
  import opened FinanceTypes
  import opened Ledger
  import FinanceContext

  /** "Total Revenue": course rows of type income; course expenses are not subtracted. */
  function CourseRevenue(ts: seq<Transaction>): real
  {
    CategoryTypeTotal(ts, Courses, Income)
  }

  /** The page and the dashboard report the same course revenue, and it never counts
      an expense row: adding a course expense leaves it unchanged. */
  lemma CourseRevenueMatchesDashboard(ts: seq<Transaction>, cs: seq<Component>, ps: seq<Project>,
                                      t: Transaction)
    requires t.kind == Expense
    ensures CourseRevenue(ts) == FinanceContext.SummaryOf(ts, cs, ps).coursesRevenue
    ensures CourseRevenue([t] + ts) == CourseRevenue(ts)
  {
    assert ([t] + ts)[0] == t;
    assert ([t] + ts)[1..] == ts;
    if t.category == Courses {
      assert OfCategory([t] + ts, Courses) == [t] + OfCategory(ts, Courses);
      assert ([t] + OfCategory(ts, Courses))[1..] == OfCategory(ts, Courses);
    }
  }

  /** The students whose payment status is paid. */
  function PaidStudents(ss: seq<Student>): (r: seq<Student>)
    ensures |r| <= |ss|
    ensures forall s :: s in r <==> s in ss && s.paymentStatus == Paid
  {
    if ss == [] then []
    else if ss[0].paymentStatus == Paid then [ss[0]] + PaidStudents(ss[1..])
    else PaidStudents(ss[1..])
  }

  /** "Pending Payments": every student not paid, the overdue ones included. */
  function UnpaidStudents(ss: seq<Student>): (r: seq<Student>)
    ensures |r| <= |ss|
    ensures forall s :: s in r <==> s in ss && s.paymentStatus != Paid
  {
    if ss == [] then []
    else if ss[0].paymentStatus != Paid then [ss[0]] + UnpaidStudents(ss[1..])
    else UnpaidStudents(ss[1..])
  }

  /** The paid and pending cards always add up to the "Total Students" card. */
  lemma {:induction false} PaymentCountsPartition(ss: seq<Student>)
    ensures |PaidStudents(ss)| + |UnpaidStudents(ss)| == |ss|
  {
    if ss != [] {
      PaymentCountsPartition(ss[1..]);
    }
  }

  /** The enrolment form; the payment status starts as pending. */
  datatype StudentForm = StudentForm(
    name: string, email: string, course: string, batchId: string, paymentStatus: PaymentStatus)

  const BlankStudentForm := StudentForm("", "", "", "", Pending)

  /** The student `handleAddStudent` enrols, dated today, or None when the name or the
      course is blank. */
  function StudentFromForm(f: StudentForm, today: Date): (r: Option<Student>)
    ensures r.None? <==> f.name == "" || f.course == ""
    ensures r.Some? ==> (r.value.name == f.name && r.value.email == f.email
                         && r.value.course == f.course && r.value.batchId == f.batchId
                         && r.value.paymentStatus == f.paymentStatus
                         && r.value.enrollmentDate == today)
  {
    if f.name == "" || f.course == "" then None
    else Some(Student("", f.name, f.email, f.course, f.batchId, today, f.paymentStatus))
  }

  /** `handleAddStudent`: a refused form changes nothing; an accepted one appends the
      student and clears the form. */
  method HandleAddStudent(store: FinanceContext.FinanceStore, f: StudentForm, id: string, today: Date)
    returns (accepted: bool, next: StudentForm)
    modifies store`students
    ensures accepted <==> StudentFromForm(f, today).Some?
    ensures !accepted ==> store.students == old(store.students) && next == f
    ensures accepted ==> store.students == old(store.students) + [StudentFromForm(f, today).value.(id := id)]
    ensures accepted ==> next == BlankStudentForm
  {
    var s := StudentFromForm(f, today);
    if s.None? {
      return false, f;
    }
    store.AddStudent(s.value, id);
    return true, BlankStudentForm;
  }

  /** Enrolling one student raises exactly one of the two payment cards by one. */
  lemma EnrolmentMovesOneCard(ss: seq<Student>, s: Student)
    ensures |PaidStudents(ss + [s])| == |PaidStudents(ss)| + (if s.paymentStatus == Paid then 1 else 0)
    ensures |UnpaidStudents(ss + [s])| == |UnpaidStudents(ss)| + (if s.paymentStatus == Paid then 0 else 1)
  {
    PaidAppend(ss, s);
    PaymentCountsPartition(ss);
    PaymentCountsPartition(ss + [s]);
  }

  lemma {:induction false} PaidAppend(ss: seq<Student>, s: Student)
    ensures PaidStudents(ss + [s]) == PaidStudents(ss) + (if s.paymentStatus == Paid then [s] else [])
  {
    if ss == [] {
      assert ss + [s] == [s];
    } else {
      assert (ss + [s])[1..] == ss[1..] + [s];
      PaidAppend(ss[1..], s);
    }
  }
}
