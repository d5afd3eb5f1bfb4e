# Business finance hub — a Dafny model

This project models the bookkeeping core of a small-business finance dashboard. The
dashboard is a React application. An in-memory store keeps six record lists:
transactions, employees, stock components, students, 3D-print jobs and projects. The
store also derives a dashboard summary from those lists. Around the store sit a set of
pages:

- The category pages (rent, marketing, salary, courses, school, projects, stock,
  3D printing, the general ledger and the monthly view) filter and sum the transactions.
  Several of them also validate a form before adding exactly one record.
- The loans page runs a small state machine: it pays instalments (EMIs) until the loan
  is complete.
- The shareholders page seeds and maintains remote tables.
- The predictions page sends a payload to a server-side `ai-predictions` function. That
  function classifies failures and extracts a JSON object from the AI's reply.

How the model is shaped:

- Amounts are exact `real`s.
- Ids, creation times and "today" are parameters.
- Every numeric form field is a number input, modelled as `Option<real>`. `None` is the
  blank field; `parseFloat`, `parseInt` and `|| fallback` are written out in `NumberInput`.
- The store is a class whose methods reassign its `seq` fields.
- Each page that mutates state has a method that returns the next form state and
  changes only the lists it names.
- Remote calls (the loans, shareholders and predictions back ends) become success or
  failure parameters. The remote tables are class fields.
- The summary fields the store never computes are `Figure.Undefined`. Subtracting them
  yields `Figure.NaN`, as in the source.

Modules:

| module | models |
|---|---|
| `Wrappers` | `Option` |
| `FinanceTypes` | the record types, category tags, `Figure` |
| `Ledger` | type and category filters and sums over transactions |
| `FinanceContext` | the store (`FinanceStore`), delete and update by id, `SummaryOf`, the sample data |
| `TransactionModal` | the add-transaction dialog |
| `NumberInput` | number-field parsing and `Math.round` |
| `Text` | join, split, count and ASCII lower-case on strings |
| `Loans` | the loans page |
| `StockPage` | the stock page |
| `PrintingPage` | the 3D-printing page |
| `MonthlyEntryPage` | the monthly view |
| `RentPage` | the rent page |
| `MarketingPage` | the marketing page |
| `SalaryPage` | the salary page |
| `CoursesPage` | the courses page |
| `SchoolPage` | the school page |
| `ProjectsPage` | the projects page |
| `ExpensesPage` | the general ledger page |
| `ShareholdersPage` | the shareholders page |
| `PredictionsPage` | the predictions page |
| `AiPredictions` | the edge function |

## Model

| member | source | states |
|---|---|---|
| FinanceTypes.CategoryTag | src/types/finance.ts:3-15 | every category has a non-empty tag |
| FinanceTypes.CategoryTagRoundTrip | src/types/finance.ts:3-15 | reading a tag back gives the category, and only its own tag reads back to it |
| FinanceTypes.TwelveCategories | src/types/finance.ts:3-15 | exactly twelve distinct categories, `utilities` and `transfer` among them |
| Ledger.OfType | src/context/FinanceContext.tsx:146-147 | the filter keeps exactly the rows of that type and never grows the list |
| Ledger.OfCategory | src/context/FinanceContext.tsx:148-150 | the filter keeps exactly the rows of that category and never grows the list |
| Ledger.TotalCons | src/context/FinanceContext.tsx:146 | a sum starting from 0 adds the head's amount to the rest |
| Ledger.TotalConcat | src/context/FinanceContext.tsx:146 | the sum distributes over concatenation |
| Ledger.OfTypeConcat | src/context/FinanceContext.tsx:146-147 | the type filter distributes over concatenation |
| Ledger.OfCategoryConcat | src/context/FinanceContext.tsx:148-150 | the category filter distributes over concatenation |
| Ledger.TypeSplit | src/context/FinanceContext.tsx:146-147 | income and expense totals add up to the whole sum, and their row counts to the list length |
| Ledger.FiltersCommute | src/context/FinanceContext.tsx:152-154 | filtering by category then type equals filtering by type then category |
| Ledger.CategorySplit | src/context/FinanceContext.tsx:148-154 | a category total is its income part plus its expense part |
| Ledger.TotalNonNegative | src/context/FinanceContext.tsx:146 | non-negative amounts have a non-negative sum |
| Ledger.FilteredTotalsBounded | src/context/FinanceContext.tsx:146-154 | with non-negative amounts, category and type totals lie between 0 and the whole sum |
| Ledger.SignedSplit | src/pages/ExpensesPage.tsx:15-17 | the running balance (income adds, expense takes away, row by row) equals total income minus total expense |
| FinanceContext.DropId | src/context/FinanceContext.tsx:88-90 | deleting by id keeps every record whose id differs, and only such records |
| FinanceContext.DropAbsent | src/context/FinanceContext.tsx:88-90 | deleting an id no record carries changes nothing |
| FinanceContext.DropTwice | src/context/FinanceContext.tsx:88-90 | deleting twice equals deleting once |
| FinanceContext.DropConcat | src/context/FinanceContext.tsx:88-90 | deleting preserves order: it distributes over concatenation |
| FinanceContext.DropPresentUnique | src/context/FinanceContext.tsx:97-99 | with unique ids, deleting a present id removes exactly that record and shortens the list by one |
| FinanceContext.PatchLaws | src/context/FinanceContext.tsx:106-108 | an empty patch changes nothing, and applying a patch twice equals applying it once |
| FinanceContext.UpdateComponents | src/context/FinanceContext.tsx:106-108 | the update keeps the length, patches the rows with the id and leaves every other row as it was |
| FinanceContext.UpdateProjects | src/context/FinanceContext.tsx:137-139 | the update keeps the length, patches the rows with the id and leaves every other row as it was |
| FinanceContext.UpdateComponentsLaws | src/context/FinanceContext.tsx:106-108 | updating an absent id changes nothing, and repeating an update changes nothing more |
| FinanceContext.UpdateProjectsLaws | src/context/FinanceContext.tsx:137-139 | updating an absent id changes nothing, and repeating an update changes nothing more |
| FinanceContext.StockValueAppend | src/context/FinanceContext.tsx:151 | appending a component raises the stock value by quantity times unit price |
| FinanceContext.ProjectsProfitAppend | src/context/FinanceContext.tsx:155 | appending a project raises the project profit by its income minus its cost |
| FinanceContext.SummaryOf | src/context/FinanceContext.tsx:145-170 | profit is income minus expense, and the four fields the summary never sets are undefined |
| FinanceContext.SummaryCoversLedger | src/context/FinanceContext.tsx:146-147 | total income plus total expense is the sum of all amounts |
| FinanceContext.SummaryCategoryPolicy | src/context/FinanceContext.tsx:148-154 | rent, salary and marketing totals count both types; 3D-printing, courses and school revenue count income rows only |
| FinanceContext.SummaryAsymmetryExample | src/context/FinanceContext.tsx:148-153 | the two policies differ: income 100 and expense 400 give a rent total of 500 but a courses revenue of 100 |
| FinanceContext.SummaryOfEmpty | src/context/FinanceContext.tsx:145-170 | empty lists give an all-zero summary |
| FinanceContext.SummaryAfterAdd | src/context/FinanceContext.tsx:79-86 | adding a transaction moves exactly the total of its own type, by its amount |
| FinanceContext.SampleStockValue | src/context/FinanceContext.tsx:43-49 | the sample inventory is worth 1050, its first two components 730 |
| FinanceContext.FinanceStore.constructor | src/context/FinanceContext.tsx:71-77 | the store starts with the six sample lists |
| FinanceContext.FinanceStore.Summary | src/context/FinanceContext.tsx:145-170 | the summary reads the current lists and changes nothing |
| FinanceContext.FinanceStore.AddTransaction | src/context/FinanceContext.tsx:79-86 | the new transaction, with its id and creation time, goes in front of the unchanged old list |
| FinanceContext.FinanceStore.DeleteTransaction | src/context/FinanceContext.tsx:88-90 | only the transaction list changes, to the rows whose id differs |
| FinanceContext.FinanceStore.AddEmployee | src/context/FinanceContext.tsx:92-95 | the employee, with its id, is appended at the end |
| FinanceContext.FinanceStore.DeleteEmployee | src/context/FinanceContext.tsx:97-99 | only the employee list changes, to the rows whose id differs |
| FinanceContext.FinanceStore.AddComponent | src/context/FinanceContext.tsx:101-104 | the component, with its id, is appended at the end |
| FinanceContext.FinanceStore.UpdateComponent | src/context/FinanceContext.tsx:106-108 | only the component list changes, by patching the rows with the id |
| FinanceContext.FinanceStore.DeleteComponent | src/context/FinanceContext.tsx:110-112 | only the component list changes, to the rows whose id differs |
| FinanceContext.FinanceStore.AddStudent | src/context/FinanceContext.tsx:114-117 | the student, with its id, is appended at the end |
| FinanceContext.FinanceStore.DeleteStudent | src/context/FinanceContext.tsx:119-121 | only the student list changes, to the rows whose id differs |
| FinanceContext.FinanceStore.AddPrintJob | src/context/FinanceContext.tsx:123-126 | the job, with its id, is appended at the end |
| FinanceContext.FinanceStore.DeletePrintJob | src/context/FinanceContext.tsx:128-130 | only the job list changes, to the rows whose id differs |
| FinanceContext.FinanceStore.AddProject | src/context/FinanceContext.tsx:132-135 | the project, with its id, is appended at the end |
| FinanceContext.FinanceStore.UpdateProject | src/context/FinanceContext.tsx:137-139 | only the project list changes, by patching the rows with the id |
| FinanceContext.FinanceStore.DeleteProject | src/context/FinanceContext.tsx:141-143 | only the project list changes, to the rows whose id differs |
| TransactionModal.SelectableCategoriesAreTen | src/components/shared/TransactionModal.tsx:21-32 | the dialog offers ten categories: every one except utilities and transfer |
| TransactionModal.Submitted | src/components/shared/TransactionModal.tsx:51-62 | a transaction is produced exactly when the amount is present and positive, and it carries that amount and the chosen type, category, description and date |
| TransactionModal.TransactionForm.constructor | src/components/shared/TransactionModal.tsx:37-46 | a missing default type is expense and a missing default category general; amount and description start blank and the date is today |
| TransactionModal.TransactionForm.Submit | src/components/shared/TransactionModal.tsx:48-71 | a blank or non-positive amount adds nothing; otherwise exactly one transaction goes in front, amount and description clear, the date returns to today, and type and category stay |
| NumberInput.Truncate | src/pages/StockPage.tsx:44 | `parseInt` drops the fraction toward zero |
| NumberInput.IntOr | src/pages/StockPage.tsx:46 | the result is the fallback or the truncated value typed; a blank field or one that truncates to 0 takes the fallback; with a non-zero fallback the result is never 0 |
| NumberInput.IntOrStable | src/pages/StockPage.tsx:46 | typing the result back into the field gives the same value: the fallback rule settles after one step |
| NumberInput.FloatOr | src/pages/ProjectsPage.tsx:49-51 | the result is the fallback or the number typed; a blank field or 0 takes the fallback; with a non-zero fallback the result is never 0 |
| NumberInput.FloatOrStable | src/pages/ProjectsPage.tsx:49-51 | typing the result back into the field gives the same value |
| NumberInput.Round | src/pages/RentPage.tsx:45 | `Math.round` lands within half a unit, with halves rounded up |
| Loans.BlankLoanForm | src/pages/LoansPage.tsx:35-44 | the form opens with twelve instalments, zero amounts and today's date |
| Loans.EmiCountInput | src/pages/LoansPage.tsx:270 | the instalment count is the integer typed, or 12 when the field is blank or 0; it is never 0 |
| Loans.CalculatedEmi | src/pages/LoansPage.tsx:69-82 | the calculator acts only when principal and count are positive; at rate 0 the EMI times the count is the principal |
| Loans.NewLoan | src/pages/LoansPage.tsx:84-92 | a new loan has nothing paid, is active, and takes principal, count and EMI from the form |
| Loans.AfterPayment | src/pages/LoansPage.tsx:113-126 | paying is refused exactly when every instalment is paid; otherwise one more is paid, the loan is completed exactly when the count is reached, and nothing else changes |
| Loans.PaymentSchedule | src/pages/LoansPage.tsx:113-126 | from any loan with k instalments left or more, k payments pay k instalments; with at least one payment the loan is completed exactly at the last instalment, after which paying is refused |
| Loans.RecordPayment | src/pages/LoansPage.tsx:123-126 | only the row with the id gets the new count and status; the length is unchanged |
| Loans.ZeroRateLoan | src/pages/LoansPage.tsx:75-76 | a zero-rate loan pays no interest, and before any payment its remaining debt is its principal |
| Loans.ActiveLoans | src/pages/LoansPage.tsx:156 | keeps exactly the active loans |
| Loans.MonthlyEmiOverActive | src/pages/LoansPage.tsx:155-156 | the monthly EMI card sums the EMIs of exactly the loans the active count counts |
| Loans.PaymentLowersDebt | src/pages/LoansPage.tsx:149-152 | one recorded payment lowers the total debt by exactly one EMI |
| Loans.PaymentKeepsPrincipal | src/pages/LoansPage.tsx:154 | recording a payment leaves the total-principal card unchanged |
| Loans.RecordPaymentAbsent | src/pages/LoansPage.tsx:123-126 | recording a payment for an absent id changes nothing |
| Loans.LoansPage.constructor | src/pages/LoansPage.tsx:32-44 | the page starts with no loans and a blank form |
| Loans.LoansPage.CalculateEmi | src/pages/LoansPage.tsx:69-82 | the form changes only in its EMI field, and only when the guard passes |
| Loans.LoansPage.AddLoan | src/pages/LoansPage.tsx:84-111 | a successful insert puts the new loan first, raises the total principal by its principal and resets the form; a failed one changes nothing |
| Loans.LoansPage.PayEmi | src/pages/LoansPage.tsx:113-134 | a fully paid loan is refused; otherwise a successful update records the next payment on that id only |
| Loans.LoansPage.DeleteLoan | src/pages/LoansPage.tsx:136-145 | a successful delete keeps the loans whose id differs |
| StockPage.LowStock | src/pages/StockPage.tsx:34 | keeps exactly the components strictly below their minimum; order and multiplicity are fixed by LowStockAppend |
| StockPage.LowStockAppend | src/pages/StockPage.tsx:34 | an appended component joins the low-stock list at its end exactly when it is low |
| StockPage.LowStockCountLaws | src/pages/StockPage.tsx:34 | the "Low Stock Items" card is 0 for an empty inventory, rises by one per low component added, and is 0 exactly when no component is low (also lines 119-121) |
| StockPage.StockExpensesBounded | src/pages/StockPage.tsx:125 | the "Stock Expenses" card plus stock income is the stock category total, and with non-negative amounts the card lies between 0 and the total expense |
| StockPage.StatusLabels | src/pages/StockPage.tsx:69 | badge and CSV call a component "Low Stock" exactly when it is low; otherwise the badge says "In Stock" and the CSV "OK" (also line 166) |
| StockPage.SampleLowStock | src/pages/StockPage.tsx:34 | of the sample inventory only the one component below its minimum is low; the one at its minimum is not |
| StockPage.ComponentFromForm | src/pages/StockPage.tsx:36-48 | refused exactly when name, quantity or unit price is blank; the quantity is truncated; the minimum is the typed one, or 5 when blank or 0, never 0; a blank category becomes "General" |
| StockPage.HandleAddComponent | src/pages/StockPage.tsx:36-52 | a refused form changes nothing; an accepted one appends one component, raises the stock value by its worth and clears the form |
| StockPage.CsvCells | src/pages/StockPage.tsx:62-70 | seven cells in header order: name and category unescaped, the quantity, the unit price and the total value to two decimals, the minimum, and the status |
| StockPage.CsvLines | src/pages/StockPage.tsx:60-71 | the header line, then one line per component in list order |
| StockPage.CsvRowFields | src/pages/StockPage.tsx:63-64 | a row splits back into exactly seven fields iff neither name nor category contains a comma, and then into its cells (also line 71) |
| StockPage.CsvCellsUnbroken | src/pages/StockPage.tsx:62-70 | without line breaks in name and category, no cell holds one |
| StockPage.CsvFileLines | src/pages/StockPage.tsx:71 | without line breaks in names and categories, the file splits back into exactly its lines |
| StockPage.NoDelimiterJoin | src/pages/StockPage.tsx:71 | joining with a comma adds no line break |
| Text.Split | src/pages/StockPage.tsx:71 | splitting always yields at least one piece |
| Text.CountConcat | src/pages/StockPage.tsx:71 | character counts add over concatenation |
| Text.CountZero | src/pages/StockPage.tsx:71 | a string without the character counts zero of it |
| Text.CountJoin | src/pages/StockPage.tsx:71 | a join holds the pieces' delimiters plus one per seam |
| Text.SplitLength | src/pages/StockPage.tsx:71 | a split has one more piece than the string has delimiters |
| Text.SplitPiece | src/pages/StockPage.tsx:71 | a delimiter-free head splits off as the first piece |
| Text.SplitNoDelimiter | src/pages/StockPage.tsx:71 | a delimiter-free string splits into itself |
| Text.SplitJoin | src/pages/StockPage.tsx:71 | splitting a join of delimiter-free pieces gives the pieces back |
| Text.FieldCount | src/pages/StockPage.tsx:71 | a joined row has as many fields as pieces plus the delimiters inside them |
| Text.CountAllZero | src/pages/StockPage.tsx:71 | delimiter-free pieces hold no delimiter in total |
| Text.Lower | src/pages/PredictionsPage.tsx:84 | lower-casing keeps the length and maps each character |
| Text.LowerIdempotent | src/pages/PredictionsPage.tsx:84 | lower-casing twice is lower-casing once |
| PrintingPage.CostAsWritten | src/pages/PrintingPage.tsx:36-41 | the cost as written is a number exactly when filament used, cost per gram, labour hours and hourly rate are all filled in (see Findings) |
| PrintingPage.BlankRateSlipsThrough | src/pages/PrintingPage.tsx:45-62 | a form with a blank hourly rate passes the guard as written, and its cost is NaN |
| PrintingPage.JobFromForm | src/pages/PrintingPage.tsx:36-62 | refused when a field the cost needs is blank; otherwise the filament cost is used times per-gram, blank electricity is 0, and the total is the cost the source computes |
| PrintingPage.JobExpense | src/pages/PrintingPage.tsx:65-71 | the booked transaction is a 3D-printing expense of the job's total cost |
| PrintingPage.JobsCostAppend | src/pages/PrintingPage.tsx:33 | appending a job raises the cost card by its total cost |
| PrintingPage.JobsHoursAppend | src/pages/PrintingPage.tsx:34 | appending a job raises the hours card by its labour hours |
| PrintingPage.Revenue | src/pages/PrintingPage.tsx:31-32 | the page's revenue is the dashboard's print-job revenue |
| PrintingPage.HandleAddJob | src/pages/PrintingPage.tsx:43-83 | with the corrected guard of JobFromForm: a refused form changes nothing; an accepted one appends one job, raises the cost and hours cards by its cost and hours, puts one matching expense in front, and resets the form to 0.03 per gram and 25 per hour |
| PrintingPage.JobBookkeeping | src/pages/PrintingPage.tsx:31-33 | a recorded job leaves revenue unchanged, lowers profit by its cost and raises total expense by its cost (also line 125) |
| MonthlyEntryPage.Years | src/pages/MonthlyEntryPage.tsx:18-19 | six consecutive years from three before the current year, the current year among them |
| MonthlyEntryPage.InMonth | src/pages/MonthlyEntryPage.tsx:45-49 | keeps exactly the rows whose month index and year both match |
| MonthlyEntryPage.MonthTransactions | src/pages/MonthlyEntryPage.tsx:29-33 | empty with no month selected; otherwise the rows of that month and year |
| MonthlyEntryPage.GetMonthStats | src/pages/MonthlyEntryPage.tsx:45-53 | the count is the number of rows in that month, and income plus expense is their whole sum |
| MonthlyEntryPage.DetailMatchesTile | src/pages/MonthlyEntryPage.tsx:36-53 | the detail panel's income and expense equal the selected tile's; with no month both are 0 |
| MonthlyEntryPage.DetailNet | src/pages/MonthlyEntryPage.tsx:102 | the net profit card is the running balance of the selected month's rows, and net plus expenses is income |
| MonthlyEntryPage.TileCountsEmpty | src/pages/MonthlyEntryPage.tsx:180-181 | no transactions, no counts on any tile |
| MonthlyEntryPage.TileCountsStep | src/pages/MonthlyEntryPage.tsx:180-181 | one more transaction adds one to the tiles exactly when it falls in the year |
| MonthlyEntryPage.TilesPartitionYear | src/pages/MonthlyEntryPage.tsx:45-53 | the twelve tile counts add up to the number of transactions in the selected year (also lines 180-181) |
| RentPage.RentMatchesDashboard | src/pages/RentPage.tsx:15-17 | rent paid plus rent income is the dashboard's rent total |
| RentPage.MonthKeys | src/pages/RentPage.tsx:45 | exactly the months some row falls in: every row's month is there and every month there comes from a row; there are at most as many as rows |
| RentPage.MonthlyAverage | src/pages/RentPage.tsx:45 | 0 without rent rows; otherwise rent paid over the number of distinct months, a divisor between 1 and the row count, rounded |
| RentPage.SingleMonthAverage | src/pages/RentPage.tsx:45 | when every rent row is in one month, the average is the whole rent paid, rounded |
| RentPage.DistinctMonthsCount | src/pages/RentPage.tsx:45 | rows in pairwise different months count one month each, so the divisor is the number of rows |
| RentPage.IncomeOnlyMonthCounts | src/pages/RentPage.tsx:45 | a month holding only rent income still counts: 300 paid and 100 received a month later average 150 |
| MarketingPage.NetResult | src/pages/MarketingPage.tsx:46 | the net result is the running balance of the marketing rows (income adds, spend takes away), and net plus spend is income |
| MarketingPage.Roi | src/pages/MarketingPage.tsx:18 | 0 without spend; otherwise ROI times spend is 100 times the net result |
| MarketingPage.Fixed1 | src/pages/MarketingPage.tsx:18 | one-decimal formatting moves a value by at most 0.05 |
| MarketingPage.RoiBadgeThreshold | src/pages/MarketingPage.tsx:18 | the ROI badge is green exactly when the ROI is above -0.05 percent (also line 54) |
| MarketingPage.RoiMeaning | src/pages/MarketingPage.tsx:16-18 | with spend, ROI is non-negative iff income covers spend, and with non-negative amounts it is at least -100 |
| MarketingPage.NonNegativeFiltered | src/pages/MarketingPage.tsx:17 | with non-negative amounts, marketing income is non-negative |
| MarketingPage.MarketingMatchesDashboard | src/pages/MarketingPage.tsx:16-17 | spend plus income is the dashboard's marketing total |
| SalaryPage.SalaryMatchesDashboard | src/pages/SalaryPage.tsx:29-30 | salary paid plus salary income is the dashboard's salary total |
| SalaryPage.PayrollAppend | src/pages/SalaryPage.tsx:31 | appending an employee raises the payroll by their salary |
| SalaryPage.PayrollConcat | src/pages/SalaryPage.tsx:31 | the payroll adds over concatenation |
| SalaryPage.PayrollAfterDelete | src/pages/SalaryPage.tsx:31 | with unique ids, deleting an employee lowers the payroll by exactly their salary (also lines 50-53) |
| SalaryPage.EmployeeFromForm | src/pages/SalaryPage.tsx:35-44 | refused exactly when name or salary is blank; a salary of 0 is accepted; the employee carries the form's fields |
| SalaryPage.HandleAddEmployee | src/pages/SalaryPage.tsx:33-48 | a refused form changes nothing; an accepted one appends one employee, raises the payroll by the salary and resets the form to today |
| CoursesPage.CourseRevenueMatchesDashboard | src/pages/CoursesPage.tsx:33-34 | course revenue is the dashboard's, and a course expense does not move it |
| CoursesPage.PaidStudents | src/pages/CoursesPage.tsx:35 | keeps exactly the paid students |
| CoursesPage.UnpaidStudents | src/pages/CoursesPage.tsx:36 | keeps exactly the students not paid, overdue ones included |
| CoursesPage.PaymentCountsPartition | src/pages/CoursesPage.tsx:35-36 | paid plus pending is the number of students |
| CoursesPage.PaidAppend | src/pages/CoursesPage.tsx:35 | appending a student adds it to the paid list exactly when it is paid |
| CoursesPage.EnrolmentMovesOneCard | src/pages/CoursesPage.tsx:35-36 | enrolling one student raises exactly one of the paid and pending cards by one (also lines 44-47) |
| CoursesPage.StudentFromForm | src/pages/CoursesPage.tsx:38-47 | refused exactly when name or course is blank; the student keeps the form's fields and is enrolled today |
| CoursesPage.HandleAddStudent | src/pages/CoursesPage.tsx:38-51 | a refused form changes nothing; an accepted one appends one student and resets the form, payment status to pending (also lines 25-31) |
| SchoolPage.NetProfit | src/pages/SchoolPage.tsx:18 | the profit is the running balance of the school rows (revenue adds, costs take away), and profit plus costs is revenue |
| SchoolPage.SchoolFigures | src/pages/SchoolPage.tsx:15-17 | revenue is the dashboard's school revenue; revenue plus costs covers every school row; the row count splits by type (also line 52) |
| ExpensesPage.Balance | src/pages/ExpensesPage.tsx:17 | the balance is the running balance of the whole ledger (income adds, expense takes away), and balance plus expense is income |
| ExpensesPage.LedgerPageFigures | src/pages/ExpensesPage.tsx:15-17 | the balance is the dashboard's profit, the two totals add up to all amounts, and the type counts add up to the row count (also line 51) |
| ProjectsPage.TotalHoursAppend | src/pages/ProjectsPage.tsx:37 | appending a project raises the hours by its hours |
| ProjectsPage.ActiveProjects | src/pages/ProjectsPage.tsx:38 | keeps exactly the active projects |
| ProjectsPage.ActiveProjectsAppend | src/pages/ProjectsPage.tsx:38 | appending a project adds it to the active list exactly when it is active |
| ProjectsPage.ProfitPrefix | src/pages/ProjectsPage.tsx:137 | a "+" exactly when income is at least cost (also line 161) |
| ProjectsPage.TotalProfitOfRows | src/pages/ProjectsPage.tsx:36 | the profit card is the dashboard's project profit, and it is not negative when every row shows "+" (also lines 137, 161) |
| ProjectsPage.StatusLabel | src/pages/ProjectsPage.tsx:152 | the badge starts with a capital letter and the rest is the stored status after its first letter; it is as long as the status, which holds no '-' |
| ProjectsPage.StatusLabelRoundTrip | src/pages/ProjectsPage.tsx:152 | lower-casing the badge gives the stored status back, so different statuses show different badges |
| ProjectsPage.ProjectFromForm | src/pages/ProjectsPage.tsx:40-54 | refused exactly when the name is blank; blank numbers become 0, and the project starts today with the chosen status |
| ProjectsPage.HandleAddProject | src/pages/ProjectsPage.tsx:40-58 | a refused form changes nothing; an accepted one appends one project, moves profit, hours and active count by its figures, and clears the form |
| ShareholdersPage.SeedRows | src/pages/ShareholdersPage.tsx:106-110 | one row per seed entry, with its name, designation and ownership, and nothing invested |
| ShareholdersPage.SeedTotals | src/pages/ShareholdersPage.tsx:106-110 | seeded rows have 0 invested in total and the seed list's ownership (also lines 180-181) |
| ShareholdersPage.SeedFigures | src/pages/ShareholdersPage.tsx:33-41 | the seed list has seven people holding 87 percent; a freshly seeded table shows seven rows, 87 percent and nothing invested |
| ShareholdersPage.SetTotal | src/pages/ShareholdersPage.tsx:153-156 | only rows with the id get the new total; the length is unchanged |
| ShareholdersPage.WithoutShareholder | src/pages/ShareholdersPage.tsx:171 | keeps every row whose id differs, and only those |
| ShareholdersPage.InvestmentRaisesTotal | src/pages/ShareholdersPage.tsx:155 | with unique ids, raising one current total by an amount raises the total-investment card by that amount (also line 180) |
| ShareholdersPage.SetTotalAbsent | src/pages/ShareholdersPage.tsx:153-156 | updating an absent id changes nothing |
| ShareholdersPage.InvestmentsOf | src/pages/ShareholdersPage.tsx:294 | keeps exactly that shareholder's investments; table order and multiplicity are fixed by InvestmentsOfAppend |
| ShareholdersPage.InvestmentsOfAppend | src/pages/ShareholdersPage.tsx:294 | a row added at the end of the table joins the shareholder's list at its end, exactly when it is theirs |
| ShareholdersPage.Timeline | src/pages/ShareholdersPage.tsx:294 | at most three entries, all of them that shareholder's (also line 344) |
| ShareholdersPage.TimelineIsPrefix | src/pages/ShareholdersPage.tsx:294 | the timeline is the first three of the shareholder's investments, all of them when there are at most three, and never another's (also line 344) |
| ShareholdersPage.StaleSnapshotExample | src/pages/ShareholdersPage.tsx:155 | the new total comes from the snapshot taken when the dialog opened, not from the table (also lines 312-313) |
| ShareholdersPage.ShareholderBook.constructor | src/pages/ShareholdersPage.tsx:44-47 | the page mounts with empty lists and loading |
| ShareholdersPage.ShareholderBook.FetchData | src/pages/ShareholdersPage.tsx:69-121 | signed out nothing happens; an empty table is seeded only when the seeding insert succeeds; otherwise the table is shown, with the investments when their read succeeds; loading ends false |
| ShareholdersPage.ShareholderBook.AddShareholder | src/pages/ShareholdersPage.tsx:123-139 | a successful insert appends a row with the form's fields and nothing invested, and clears the form; a blank ownership becomes 0 (also line 264); a failure keeps the table and the form |
| ShareholdersPage.ShareholderBook.AddInvestment | src/pages/ShareholdersPage.tsx:141-167 | nothing without a user and a selection; the investment row is inserted first, and only then is the total set to the selected total plus the amount; a failed update leaves the inserted row; the form is reset to amount 0, today and no description only when both writes succeed (also line 371) |
| ShareholdersPage.BlankInvestmentForm | src/pages/ShareholdersPage.tsx:162 | the reset investment form reads as amount 0, with today's date and no description |
| ShareholdersPage.ShareholderBook.DeleteShareholder | src/pages/ShareholdersPage.tsx:169-178 | a successful delete drops the rows with the id; investments stay |
| PredictionsPage.Recent | src/pages/PredictionsPage.tsx:57-62 | the first twenty transactions, or all when fewer, each cut down to type, category, amount and date |
| PredictionsPage.PayloadFromStore | src/pages/PredictionsPage.tsx:43-63 | net cashflow is income minus expenses; rent, salary, marketing and courses in the breakdown are the dashboard's; the monthly figures and utilities are undefined, and the monthly profit, their difference under FinanceTypes.Minus, is NaN; at most twenty recent rows |
| PredictionsPage.PredictionsView.constructor | src/pages/PredictionsPage.tsx:35-36 | no predictions and not loading |
| PredictionsPage.PredictionsView.Generate | src/pages/PredictionsPage.tsx:40-79 | only a successful reply replaces the predictions; loading ends false whatever the outcome |
| PredictionsPage.GenerateKeepsLastGood | src/pages/PredictionsPage.tsx:69-78 | after a success, a failed reply and a failed call leave the good predictions on screen |
| PredictionsPage.RiskColor | src/pages/PredictionsPage.tsx:83-90 | low, medium and high in any case get their colours; anything else, or no level, is muted |
| PredictionsPage.RiskColorIgnoresCase | src/pages/PredictionsPage.tsx:84 | a level and its lower-cased form get the same colour |
| PredictionsPage.TrendIconOf | src/pages/PredictionsPage.tsx:92-96 | the up icon exactly for "up", the down icon exactly for "down" |
| PredictionsPage.CaseRulesDiffer | src/pages/PredictionsPage.tsx:84 | "HIGH" is a high risk, but "UP" is not an upward trend (also line 93) |
| AiPredictions.FirstIndex | supabase/functions/ai-predictions/index.ts:74 | the first occurrence: absent iff the character is absent, and none earlier |
| AiPredictions.LastIndex | supabase/functions/ai-predictions/index.ts:74 | the last occurrence: absent iff the character is absent, and none later |
| AiPredictions.BracePairBounds | supabase/functions/ai-predictions/index.ts:74 | a '{' before a '}' exists iff the first '{' precedes the last '}' |
| AiPredictions.BraceSpan | supabase/functions/ai-predictions/index.ts:74-75 | no match iff no '{' precedes a '}'; a match starts at a '{', ends at a '}', and contains every brace pair |
| AiPredictions.Extracted | supabase/functions/ai-predictions/index.ts:74-76 | the matched text starts with '{' and ends with '}' |
| AiPredictions.ExtractedIsGreedy | supabase/functions/ai-predictions/index.ts:74 | the match covers any brace-delimited piece; no '{' lies before it and no '}' after it |
| AiPredictions.PredictionsFrom | supabase/functions/ai-predictions/index.ts:68-82 | the parsed span when there is one and it parses; otherwise the content wrapped as a summary |
| AiPredictions.HandleRequest | supabase/functions/ai-predictions/index.ts:8-94 | a preflight does nothing else; a bad body or missing key gives 500; a gateway 429 gives 429, 402 gives 402, other failures 500; a thrown fetch or an unparsable reply gives 500 with the thrown message; success returns the predictions |

## Left out

- The non-zero-rate EMI formula (`Math.pow`, `Math.round`) at src/pages/LoansPage.tsx:78-79. `Loans.CalculatedEmi` takes its result as the parameter `amortised`.
- IEEE double arithmetic: sums, products and divisions are exact `real`s. Overflow, rounding and `-0` are not modelled.
- `Intl.NumberFormat`, `toLocaleString` and `toFixed(2)` formatting. The CSV's numeric cells come from an abstract formatter (`StockPage.Formatter`) that is assumed to produce no comma and no line break. `toFixed(1)` in the ROI is modelled (`MarketingPage.Fixed1`).
- `parseFloat` and `parseInt` on text. Number inputs hold blank or a well-formed decimal. Exponent forms and partly numeric text are not modelled.
- Time: `Date.now()` ids, `new Date()` dates and creation times are parameters. `new Date(t.date).getMonth()` is taken as the ISO month minus one, with no time-zone shift. Dates are year, month and day only.
- Date inputs (employee start date, investment date) always hold a date; a cleared date field is not modelled.
- Toasts, dialog open and close flags, and confirmation messages. These are UI only.
- Remote calls are outcome parameters:
  - Supabase inserts, updates, deletes and reads on the loans and shareholders pages;
  - `supabase.functions.invoke`;
  - the AI gateway `fetch`;
  - `req.json()`;
  - `Deno.env`.
- Re-fetch after a mutation, its timing and races. `ShareholdersPage.ShareholderBook.FetchData` and the mutations are separate calls. The seeding's own re-fetch is a later `FetchData`. The database's ordering of rows (by ownership, by date) is not modelled.
- Shareholder contact fields (email, phone, photo URL) are display-only and are not modelled. The same goes for loan lender and notes.
- `PredictionsPage.PredictionsView.Generate`: the `loading == true` state during the call is not exposed. Only the final state is stated.
- JSON parsing is the parameter `parse`. JSON encoding of the payload (undefined keys dropped, NaN written as null) is described, not modelled.
- `ShareholdersPage.InvestmentRaisesTotal` requires the selected shareholder's snapshot to be current. With a stale snapshot the earlier total is overwritten (`ShareholdersPage.StaleSnapshotExample`).
- Loan status is the two-value datatype `Loans.LoanStatus`. Any other status string a row might hold is not modelled.
- PrintingPage.HandleAddJob: uses the corrected guard, so a form with a blank per-gram cost or hourly rate is refused. The source at src/pages/PrintingPage.tsx:45-71 accepts it, appends a job with a NaN cost and books a NaN expense; that behaviour is modelled only by PrintingPage.CostAsWritten and PrintingPage.BlankRateSlipsThrough (see Findings).
- Text.Lower: maps ASCII letters only, where `toLowerCase` maps every Unicode letter. The risk levels compared against it are ASCII words, so the colours chosen are the same.
- Course and project status colours (`getStatusColor`) are styling and are not modelled.
- src/hooks/useSupabaseData.ts, src/pages/Index.tsx, src/pages/EcosystemPage.tsx, the layout and shared display components, and routing are not part of this model.

## Findings

| source | as written | input that shows it | evidently intended | confidence | as-written member | corrected member |
|---|---|---|---|---|---|---|
| src/pages/PrintingPage.tsx:36-48 | the guard checks name, filament used and labour hours, but the cost also multiplies the per-gram cost and the hourly rate, read without a fallback | name "Bracket", 100 g, 0.03 per gram, 2 hours, hourly rate cleared: the job is accepted with a NaN total cost, and a NaN expense is booked (lines 50-71) | refuse the job, or fall back, when a factor of the cost is blank | medium, not executed | PrintingPage.BlankRateSlipsThrough | PrintingPage.JobFromForm |
