/**
 * Employees (api/src/controllers/employeeController.js): recording an expense against an employee,
 * and the monthly expense report with its per-department and per-location breakdowns.
 */
module Payroll {
  import opened Wrappers
  import opened Folds
  import opened Records
  import opened Tables
  import Reports

  // ---------------------------------------------------------------------------------------------
  // Adding an expense

  /**
   * `POST /employees/:id/expenses`: a missing employee is a 404; otherwise the request's expense is
   * stored under the new key with its employee reference overwritten by the path's employee, and
   * nothing else changes. The key the database draws is an input.
   */
  function AddExpense(s: Store, employeeId: Id, expenseId: Id, body: Expense): (r: Outcome<Expense>)
    requires expenseId !in s.expenses
    ensures r.Ok? <==> employeeId in s.employees
    ensures r.Err? ==> r.error == NotFound
    ensures r.Ok? ==>
      && r.value.employeeId == employeeId
      && r.value.(employeeId := body.employeeId) == body
      && r.store == s.(expenses := s.expenses[expenseId := r.value])
  {
    if employeeId !in s.employees then Err(NotFound)
    else
      var e := body.(employeeId := employeeId);
      Ok(s.(expenses := s.expenses[expenseId := e]), e)
  }

  /** The keys of the expenses recorded against an employee. */
  function ExpensesOf(s: Store, employeeId: Id): set<Id>
  {
    set k | k in s.expenses && s.expenses[k].employeeId == employeeId
  }

  /**
   * After adding an expense, the employee's expenses are the old ones and the new one, whatever
   * employee the request body named, and every other employee's expenses are as before.
   */
  lemma AddExpenseAttributes(s: Store, employeeId: Id, expenseId: Id, body: Expense, other: Id)
    requires expenseId !in s.expenses
    requires AddExpense(s, employeeId, expenseId, body).Ok?
    requires other != employeeId
    ensures var t := AddExpense(s, employeeId, expenseId, body).store;
      && ExpensesOf(t, employeeId) == ExpensesOf(s, employeeId) + {expenseId}
      && ExpensesOf(t, other) == ExpensesOf(s, other)
  {
  }

  // ---------------------------------------------------------------------------------------------
  // Expense report

  /** An employee row with every expense row recorded against it. */
  datatype Staffed = Staffed(id: Id, employee: Employee, expenses: seq<Expense>)

  datatype EmployeeRow = EmployeeRow(
    id: Id,
    department: Department,
    location: Location,
    salary: int,
    additionalExpenses: int,
    totalCost: int,
    expenseBreakdown: map<ExpenseType, int>)

  datatype Group = Group(count: int, totalCost: int)

  datatype ExpenseSummary = ExpenseSummary(
    totalEmployees: int,
    totalSalary: int,
    totalAdditionalExpenses: int,
    totalCost: int,
    byDepartment: map<Department, Group>,
    byLocation: map<Location, Group>)

  datatype ExpenseReport = ExpenseReport(summary: ExpenseSummary, employees: seq<EmployeeRow>)

  /** The expenses the report counts: paid, dated inside the month. Every type counts, deductions too. */
  function Counted(w: Window): Expense -> bool
  {
    (e: Expense) => e.status == PaidExpense && InWindow(w, e.date)
  }

  function StaffAt(loc: Option<Location>): Staffed -> bool
  {
    (st: Staffed) => AtLocation(loc, st.employee.location)
  }

  /** One employee's line: salary, the counted expenses added up, and their totals per type. */
  function RowOf(w: Window): Staffed -> EmployeeRow
  {
    (st: Staffed) =>
      var counted := Filter(st.expenses, Counted(w));
      var extra := Sum(counted, Reports.AmountOf);
      EmployeeRow(st.id, st.employee.department, st.employee.location, st.employee.salary,
                  extra, st.employee.salary + extra, Tally(counted, Reports.TypeOf, Reports.AmountOf))
  }

  function SalaryOf(r: EmployeeRow): int { r.salary }
  function ExtraOf(r: EmployeeRow): int { r.additionalExpenses }
  function CostOf(r: EmployeeRow): int { r.totalCost }
  function OneRow(r: EmployeeRow): int { 1 }
  function DepartmentOf(r: EmployeeRow): Department { r.department }
  function LocationOf(r: EmployeeRow): Location { r.location }
  function CountColumn(g: Group): int { g.count }
  function CostColumn(g: Group): int { g.totalCost }

  /** A count tally and a cost tally over the same rows joined into one group per key. */
  function Groups<K>(counts: map<K, int>, costs: map<K, int>): (r: map<K, Group>)
    requires counts.Keys == costs.Keys
    ensures Column(r, CountColumn) == counts && Column(r, CostColumn) == costs
  {
    map k | k in counts :: Group(counts[k], costs[k])
  }

  /** Each employee line's breakdown holds one entry per counted type and adds up to the extras. */
  lemma RowBalances(w: Window, st: Staffed)
    ensures var row := RowOf(w)(st);
      var counted := Filter(st.expenses, Counted(w));
      && row.totalCost == row.salary + row.additionalExpenses
      && row.expenseBreakdown.Keys == KeysOf(counted, Reports.TypeOf)
      && Spread(row.expenseBreakdown, AllExpenseTypes) == row.additionalExpenses
  {
    var counted := Filter(st.expenses, Counted(w));
    TallyMeaning(counted, Reports.TypeOf, Reports.AmountOf);
    ExpenseTypesListed();
    TallyTotal(counted, Reports.TypeOf, Reports.AmountOf, AllExpenseTypes);
  }

  /**
   * The summary of the employee lines: their sums, and the department and location groups, each
   * counting every line once and adding up to the total cost.
   */
  function Summarize(rows: seq<EmployeeRow>): (r: ExpenseSummary)
    ensures r.totalEmployees == |rows|
    ensures r.totalSalary == Sum(rows, SalaryOf)
    ensures r.totalAdditionalExpenses == Sum(rows, ExtraOf)
    ensures r.totalCost == Sum(rows, CostOf)
    ensures r.byDepartment.Keys == KeysOf(rows, DepartmentOf)
    ensures forall d :: d in r.byDepartment ==>
      r.byDepartment[d] == Group(SumAt(rows, DepartmentOf, d, OneRow), SumAt(rows, DepartmentOf, d, CostOf))
    ensures r.byLocation.Keys == KeysOf(rows, LocationOf)
    ensures forall l :: l in r.byLocation ==>
      r.byLocation[l] == Group(SumAt(rows, LocationOf, l, OneRow), SumAt(rows, LocationOf, l, CostOf))
    ensures Spread(Column(r.byDepartment, CountColumn), AllDepartments) == r.totalEmployees
    ensures Spread(Column(r.byDepartment, CostColumn), AllDepartments) == r.totalCost
    ensures Spread(Column(r.byLocation, CountColumn), AllLocations) == r.totalEmployees
    ensures Spread(Column(r.byLocation, CostColumn), AllLocations) == r.totalCost
  {
    SumOnes(rows, OneRow);
    TallyMeaning(rows, DepartmentOf, OneRow);
    TallyMeaning(rows, DepartmentOf, CostOf);
    TallyMeaning(rows, LocationOf, OneRow);
    TallyMeaning(rows, LocationOf, CostOf);
    DepartmentsListed();
    LocationsListed();
    TallyTotal(rows, DepartmentOf, OneRow, AllDepartments);
    TallyTotal(rows, DepartmentOf, CostOf, AllDepartments);
    TallyTotal(rows, LocationOf, OneRow, AllLocations);
    TallyTotal(rows, LocationOf, CostOf, AllLocations);
    ExpenseSummary(
      |rows|, Sum(rows, SalaryOf), Sum(rows, ExtraOf), Sum(rows, CostOf),
      Groups(Tally(rows, DepartmentOf, OneRow), Tally(rows, DepartmentOf, CostOf)),
      Groups(Tally(rows, LocationOf, OneRow), Tally(rows, LocationOf, CostOf)))
  }

  lemma {:induction false} CostIsSalaryPlusExtras(rows: seq<EmployeeRow>)
    requires forall i :: 0 <= i < |rows| ==> rows[i].totalCost == rows[i].salary + rows[i].additionalExpenses
    ensures Sum(rows, CostOf) == Sum(rows, SalaryOf) + Sum(rows, ExtraOf)
    decreases |rows|
  {
    if |rows| > 0 {
      CostIsSalaryPlusExtras(rows[1..]);
    }
  }

  /**
   * `GET /employees/expense-report`: one line per employee at the location (all of them when none is
   * given), in the order of the rows, with those lacking counted expenses at zero extras; each line's
   * breakdown adds up to its extras; the summary is that of the lines, so its total cost is the
   * salaries plus the extras.
   */
  function GetExpenseReport(staff: seq<Staffed>, w: Window, loc: Option<Location>): (r: ExpenseReport)
    ensures var kept := Filter(staff, StaffAt(loc));
      && |r.employees| == |kept|
      && (forall i :: 0 <= i < |kept| ==>
            && r.employees[i].id == kept[i].id
            && r.employees[i].salary == kept[i].employee.salary
            && r.employees[i].additionalExpenses == Sum(Filter(kept[i].expenses, Counted(w)), Reports.AmountOf)
            && r.employees[i].totalCost == r.employees[i].salary + r.employees[i].additionalExpenses
            && Spread(r.employees[i].expenseBreakdown, AllExpenseTypes) == r.employees[i].additionalExpenses)
    ensures forall i :: 0 <= i < |r.employees| ==> r.employees[i] in Map(staff, RowOf(w))
    ensures r.summary == Summarize(r.employees)
    ensures r.summary.totalCost == r.summary.totalSalary + r.summary.totalAdditionalExpenses
  {
    var kept := Filter(staff, StaffAt(loc));
    var rows := Map(kept, RowOf(w));
    forall i | 0 <= i < |kept|
      ensures Spread(rows[i].expenseBreakdown, AllExpenseTypes) == rows[i].additionalExpenses
    {
      RowBalances(w, kept[i]);
    }
    CostIsSalaryPlusExtras(rows);
    forall i | 0 <= i < |rows| ensures rows[i] in Map(staff, RowOf(w)) {
      FilterMembers(staff, StaffAt(loc), kept[i]);
      assert kept[i] in kept;
      var j :| 0 <= j < |staff| && staff[j] == kept[i];
      assert Map(staff, RowOf(w))[j] == rows[i];
    }
    ExpenseReport(Summarize(rows), rows)
  }

  /**
   * Every counted expense raises its employee's cost by its amount, whatever its type: a deduction
   * is added like a bonus. An expense that is unpaid or outside the month changes nothing.
   */
  lemma ExpenseRaisesCost(w: Window, st: Staffed, e: Expense)
    ensures var before := RowOf(w)(st);
      var after := RowOf(w)(st.(expenses := st.expenses + [e]));
      after.totalCost == before.totalCost + (if Counted(w)(e) then e.amount else 0)
  {
    FilterAppend(st.expenses, [e], Counted(w));
    SumAppend(Filter(st.expenses, Counted(w)), Filter([e], Counted(w)), Reports.AmountOf);
  }
}
