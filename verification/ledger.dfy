/**
 * The ledger reports of api/src/controllers/transactionController.js: the monthly financial summary,
 * the twelve-month cash flow with its running total, and the balances of the four accounts.
 */
module Ledger {
  import opened Wrappers
  import opened Records
  import opened Folds
  import Orders

  // ---------------------------------------------------------------------------------------------
  // Row measures

  predicate IsIncome(t: Transaction) { t.kind == Income }
  predicate IsExpense(t: Transaction) { t.kind == ExpenseTxn }
  predicate HasAccount(t: Transaction) { t.account.Some? }
  predicate NoAccount(t: Transaction) { t.account.None? }

  function Amount(t: Transaction): int { t.amount }

  /** The amount when the row is income, else 0: transfers move nothing in the reports. */
  function IncomePart(t: Transaction): int { if IsIncome(t) then t.amount else 0 }
  function ExpensePart(t: Transaction): int { if IsExpense(t) then t.amount else 0 }

  /** Income adds, expense subtracts, a transfer counts for nothing. */
  function Signed(t: Transaction): int { IncomePart(t) - ExpensePart(t) }

  function CategoryOf(t: Transaction): TxnCategory { t.category }
  function LocationOf(t: Transaction): Location { t.location }
  function AccountOf(t: Transaction): Option<Account> { t.account }

  /** Completed entries dated in the window, at the location when one is given. */
  function InPeriod(w: Window, loc: Option<Location>): Transaction -> bool
  {
    (t: Transaction) => InWindow(w, t.date) && t.status == Completed && AtLocation(loc, t.location)
  }

  // ---------------------------------------------------------------------------------------------
  // Financial summary

  datatype Summary = Summary(
    transactionCount: int,
    incomeTotal: int,
    expenseTotal: int,
    netIncome: int,
    incomeByCategory: map<TxnCategory, int>,
    expenseByCategory: map<TxnCategory, int>,
    /** `byAccount[a].income` and `.expense`; only rows that carry an account get an entry. */
    accountIncome: map<Option<Account>, int>,
    accountExpense: map<Option<Account>, int>,
    /** `byLocation[l].income` and `.expense`; every row gets an entry for its location. */
    locationIncome: map<Location, int>,
    locationExpense: map<Location, int>)

  /**
   * `GET /transactions/summary` for the month `w` stands for, over the completed entries dated in it
   * (at the location when one is given). Income and expense totals, with transfers in neither, their
   * per-category tallies, per-account and per-location income and expense; an account or location
   * entry exists exactly for the accounts and locations of the period's rows, transfers included.
   */
  function FinancialSummary(txns: seq<Transaction>, w: Window, loc: Option<Location>): (r: Summary)
    ensures r.transactionCount <= |txns|
    ensures r.transactionCount == |Filter(txns, InPeriod(w, loc))|
    ensures r.incomeTotal == Sum(Filter(txns, InPeriod(w, loc)), IncomePart)
    ensures r.expenseTotal == Sum(Filter(txns, InPeriod(w, loc)), ExpensePart)
    ensures r.netIncome == r.incomeTotal - r.expenseTotal == Sum(Filter(txns, InPeriod(w, loc)), Signed)
    ensures var incomes := Filter(Filter(txns, InPeriod(w, loc)), IsIncome);
      && r.incomeByCategory.Keys == KeysOf(incomes, CategoryOf)
      && forall c :: c in r.incomeByCategory ==> r.incomeByCategory[c] == SumAt(incomes, CategoryOf, c, Amount)
    ensures var expenses := Filter(Filter(txns, InPeriod(w, loc)), IsExpense);
      && r.expenseByCategory.Keys == KeysOf(expenses, CategoryOf)
      && forall c :: c in r.expenseByCategory ==> r.expenseByCategory[c] == SumAt(expenses, CategoryOf, c, Amount)
    ensures r.locationIncome.Keys == r.locationExpense.Keys == KeysOf(Filter(txns, InPeriod(w, loc)), LocationOf)
    ensures forall l :: l in r.locationIncome ==>
      && r.locationIncome[l] == SumAt(Filter(txns, InPeriod(w, loc)), LocationOf, l, IncomePart)
      && r.locationExpense[l] == SumAt(Filter(txns, InPeriod(w, loc)), LocationOf, l, ExpensePart)
    ensures var withAccount := Filter(Filter(txns, InPeriod(w, loc)), HasAccount);
      && r.accountIncome.Keys == r.accountExpense.Keys == KeysOf(withAccount, AccountOf)
      && forall a :: a in r.accountIncome ==>
           && r.accountIncome[a] == SumAt(withAccount, AccountOf, a, IncomePart)
           && r.accountExpense[a] == SumAt(withAccount, AccountOf, a, ExpensePart)
    ensures None !in r.accountIncome
  {
    var rows := Filter(txns, InPeriod(w, loc));
    var incomes := Filter(rows, IsIncome);
    var expenses := Filter(rows, IsExpense);
    var withAccount := Filter(rows, HasAccount);
    TallyMeaning(incomes, CategoryOf, Amount);
    TallyMeaning(expenses, CategoryOf, Amount);
    TallyMeaning(rows, LocationOf, IncomePart);
    TallyMeaning(rows, LocationOf, ExpensePart);
    TallyMeaning(withAccount, AccountOf, IncomePart);
    TallyMeaning(withAccount, AccountOf, ExpensePart);
    var income := Sum(incomes, Amount);
    var expense := Sum(expenses, Amount);
    SumFilterMask(rows, IsIncome, Amount, IncomePart);
    SumFilterMask(rows, IsExpense, Amount, ExpensePart);
    SumSub(rows, IncomePart, ExpensePart, Signed);
    Summary(|rows|, income, expense, income - expense,
            Tally(incomes, CategoryOf, Amount), Tally(expenses, CategoryOf, Amount),
            Tally(withAccount, AccountOf, IncomePart), Tally(withAccount, AccountOf, ExpensePart),
            Tally(rows, LocationOf, IncomePart), Tally(rows, LocationOf, ExpensePart))
  }

  /** The per-category entries add up to the income and expense totals. */
  lemma CategoriesAddUp(txns: seq<Transaction>, w: Window, loc: Option<Location>)
    ensures var r := FinancialSummary(txns, w, loc);
      && Spread(r.incomeByCategory, AllTxnCategories) == r.incomeTotal
      && Spread(r.expenseByCategory, AllTxnCategories) == r.expenseTotal
  {
    var rows := Filter(txns, InPeriod(w, loc));
    TxnCategoriesListed();
    TallyTotal(Filter(rows, IsIncome), CategoryOf, Amount, AllTxnCategories);
    TallyTotal(Filter(rows, IsExpense), CategoryOf, Amount, AllTxnCategories);
  }

  /** The per-location entries add up to the income and expense totals. */
  lemma LocationsAddUp(txns: seq<Transaction>, w: Window, loc: Option<Location>)
    ensures var r := FinancialSummary(txns, w, loc);
      && Spread(r.locationIncome, AllLocations) == r.incomeTotal
      && Spread(r.locationExpense, AllLocations) == r.expenseTotal
  {
    var rows := Filter(txns, InPeriod(w, loc));
    LocationsListed();
    TallyTotal(rows, LocationOf, IncomePart, AllLocations);
    TallyTotal(rows, LocationOf, ExpensePart, AllLocations);
    SumFilterMask(rows, IsIncome, Amount, IncomePart);
    SumFilterMask(rows, IsExpense, Amount, ExpensePart);
  }

  /** The per-account entries miss exactly the rows without an account: they add up to the totals
      minus the income and expense booked to no account. */
  lemma AccountsAddUp(txns: seq<Transaction>, w: Window, loc: Option<Location>)
    ensures var r := FinancialSummary(txns, w, loc);
      var rows := Filter(txns, InPeriod(w, loc));
      && Spread(r.accountIncome, AllAccountKeys) + Sum(Filter(rows, NoAccount), IncomePart) == r.incomeTotal
      && Spread(r.accountExpense, AllAccountKeys) + Sum(Filter(rows, NoAccount), ExpensePart) == r.expenseTotal
  {
    var rows := Filter(txns, InPeriod(w, loc));
    var withAccount := Filter(rows, HasAccount);
    AccountKeysListed();
    TallyTotal(withAccount, AccountOf, IncomePart, AllAccountKeys);
    TallyTotal(withAccount, AccountOf, ExpensePart, AllAccountKeys);
    SumFilterSplit(rows, HasAccount, NoAccount, IncomePart);
    SumFilterSplit(rows, HasAccount, NoAccount, ExpensePart);
    SumFilterMask(rows, IsIncome, Amount, IncomePart);
    SumFilterMask(rows, IsExpense, Amount, ExpensePart);
  }

  /** Booking one more completed income entry inside the period raises the income total, and its
      category and location entries, by its amount; the expense side is unchanged. */
  lemma IncomeEntryCounts(txns: seq<Transaction>, t: Transaction, w: Window, loc: Option<Location>)
    requires IsIncome(t) && InPeriod(w, loc)(t)
    ensures var before := FinancialSummary(txns, w, loc);
      var after := FinancialSummary(txns + [t], w, loc);
      && after.incomeTotal == before.incomeTotal + t.amount
      && after.expenseTotal == before.expenseTotal
      && after.transactionCount == before.transactionCount + 1
      && Get0(after.incomeByCategory, t.category) == Get0(before.incomeByCategory, t.category) + t.amount
      && Get0(after.locationIncome, t.location) == Get0(before.locationIncome, t.location) + t.amount
  {
    var rows := Filter(txns, InPeriod(w, loc));
    PeriodAppend(txns, t, w, loc);
    IncomeRowsAppend(rows, t);
    TallyAppendOne(Filter(rows, IsIncome), t, CategoryOf, Amount);
    TallyAppendOne(rows, t, LocationOf, IncomePart);
  }

  lemma PeriodAppend(txns: seq<Transaction>, t: Transaction, w: Window, loc: Option<Location>)
    requires InPeriod(w, loc)(t)
    ensures Filter(txns + [t], InPeriod(w, loc)) == Filter(txns, InPeriod(w, loc)) + [t]
  {
    FilterAppend(txns, [t], InPeriod(w, loc));
  }

  lemma IncomeRowsAppend(rows: seq<Transaction>, t: Transaction)
    requires IsIncome(t)
    ensures Filter(rows + [t], IsIncome) == Filter(rows, IsIncome) + [t]
    ensures Filter(rows + [t], IsExpense) == Filter(rows, IsExpense)
    ensures Sum(Filter(rows + [t], IsIncome), Amount) == Sum(Filter(rows, IsIncome), Amount) + t.amount
  {
    FilterAppend(rows, [t], IsIncome);
    FilterAppend(rows, [t], IsExpense);
    assert Filter([t], IsExpense) == [];
    assert Filter(rows, IsExpense) + [] == Filter(rows, IsExpense);
    SumAppend(Filter(rows, IsIncome), [t], Amount);
  }

  lemma TallyAppendOne<K>(s: seq<Transaction>, t: Transaction, key: Transaction -> K, f: Transaction -> int)
    ensures Get0(Tally(s + [t], key, f), key(t)) == Get0(Tally(s, key, f), key(t)) + f(t)
  {
    var k := key(t);
    TallyMeaning(s, key, f);
    TallyMeaning(s + [t], key, f);
    assert Get0(Tally(s, key, f), k) == SumAt(s, key, k, f);
    assert Get0(Tally(s + [t], key, f), k) == SumAt(s + [t], key, k, f);
    SumAtAppendOne(s, t, key, f);
  }

  lemma {:induction false} SumAtAppendOne<K>(s: seq<Transaction>, t: Transaction, key: Transaction -> K, f: Transaction -> int)
    ensures SumAt(s + [t], key, key(t), f) == SumAt(s, key, key(t), f) + f(t)
    decreases |s|
  {
    if |s| == 0 {
      assert s + [t] == [t];
    } else {
      assert (s + [t])[1..] == s[1..] + [t];
      SumAtAppendOne(s[1..], t, key, f);
    }
  }

  // ---------------------------------------------------------------------------------------------
  // Months of a year

  /**
   * The first day of each month of the year and of the following January, as day numbers, strictly
   * increasing; it stands for the calendar arithmetic of `new Date(year, m, 1)`.
   */
  predicate ValidCalendar(cal: seq<int>)
  {
    |cal| == 13 && forall i, j :: 0 <= i < j < 13 ==> cal[i] < cal[j]
  }

  /** The month (1 to 12) a day falls in, searching from month `m`; 0 outside the year. */
  function FindMonth(cal: seq<int>, d: int, m: nat): int
    requires 1 <= m
    decreases |cal| - m
  {
    if m >= |cal| then 0
    else if cal[m - 1] <= d < cal[m] then m
    else FindMonth(cal, d, m + 1)
  }

  function MonthOf(cal: seq<int>, d: int): int
  {
    FindMonth(cal, d, 1)
  }

  lemma {:induction false} FindMonthSpec(cal: seq<int>, d: int, m: nat, k: int)
    requires ValidCalendar(cal)
    requires 1 <= m <= 13
    requires m <= k <= 12
    ensures FindMonth(cal, d, m) == k <==> cal[k - 1] <= d < cal[k]
    decreases 13 - m
  {
    if cal[m - 1] <= d < cal[m] {
      if m < k {
        assert cal[m] <= cal[k - 1] by {
          if m < k - 1 { assert cal[m] < cal[k - 1]; }
        }
      }
    } else {
      FindMonthRange(cal, d, m + 1);
      if m < k {
        FindMonthSpec(cal, d, m + 1, k);
      }
    }
  }

  lemma {:induction false} FindMonthRange(cal: seq<int>, d: int, m: nat)
    requires 1 <= m
    ensures FindMonth(cal, d, m) == 0 || m <= FindMonth(cal, d, m) < |cal|
    decreases |cal| - m
  {
    if m < |cal| && !(cal[m - 1] <= d < cal[m]) {
      FindMonthRange(cal, d, m + 1);
    }
  }

  /** A day lies in month `k` exactly when it is on or after the first of `k` and before the first of
      the next month. */
  lemma MonthOfSpec(cal: seq<int>, d: int, k: int)
    requires ValidCalendar(cal)
    requires 1 <= k <= 12
    ensures MonthOf(cal, d) == k <==> cal[k - 1] <= d < cal[k]
  {
    FindMonthSpec(cal, d, 1, k);
  }

  /** Every day of the year falls in one of the twelve months. */
  lemma {:induction false} MonthOfInYear(cal: seq<int>, d: int, m: nat)
    requires ValidCalendar(cal)
    requires 1 <= m <= 12
    requires cal[m - 1] <= d < cal[12]
    ensures 1 <= FindMonth(cal, d, m) <= 12
    decreases 13 - m
  {
    if !(cal[m - 1] <= d < cal[m]) {
      MonthOfInYear(cal, d, m + 1);
    }
  }

  function MonthWindow(cal: seq<int>, m: int): Window
    requires ValidCalendar(cal) && 1 <= m <= 12
  {
    Window(cal[m - 1], cal[m] - 1)
  }

  function YearWindow(cal: seq<int>): Window
    requires ValidCalendar(cal)
  {
    Window(cal[0], cal[12] - 1)
  }

  function MonthKey(cal: seq<int>): Transaction -> int
  {
    (t: Transaction) => MonthOf(cal, t.date)
  }

  // ---------------------------------------------------------------------------------------------
  // Cash flow

  datatype MonthRow = MonthRow(month: int, income: int, expense: int, net: int, cumulativeNet: int)

  const Months: seq<int> := [1, 2, 3, 4, 5, 6, 7, 8, 9, 10, 11, 12]

  /** Twelve months, each starting at zero. */
  const ZeroMonths: map<int, int> := map m | 1 <= m <= 12 :: 0

  function YearRows(txns: seq<Transaction>, cal: seq<int>, loc: Option<Location>): seq<Transaction>
    requires ValidCalendar(cal)
  {
    Filter(txns, InPeriod(YearWindow(cal), loc))
  }

  /**
   * `GET /transactions/cash-flow`: for each month, the income and expense of the year's completed
   * entries dated in that month, their difference, and the running total of those differences; the
   * twelfth running total is the year's income minus its expense.
   */
  method CashFlow(txns: seq<Transaction>, cal: seq<int>, loc: Option<Location>) returns (flow: seq<MonthRow>)
    requires ValidCalendar(cal)
    ensures |flow| == 12
    ensures forall i :: 0 <= i < 12 ==>
      && flow[i].month == i + 1
      && flow[i].income == SumAt(YearRows(txns, cal, loc), MonthKey(cal), i + 1, IncomePart)
      && flow[i].expense == SumAt(YearRows(txns, cal, loc), MonthKey(cal), i + 1, ExpensePart)
      && flow[i].net == flow[i].income - flow[i].expense
    ensures flow[0].cumulativeNet == flow[0].net
    ensures forall i :: 0 < i < 12 ==> flow[i].cumulativeNet == flow[i - 1].cumulativeNet + flow[i].net
    ensures flow[11].cumulativeNet == Sum(YearRows(txns, cal, loc), Signed)
  {
    var rows := YearRows(txns, cal, loc);
    var income := TallyInto(ZeroMonths, rows, MonthKey(cal), IncomePart);
    var expense := TallyInto(ZeroMonths, rows, MonthKey(cal), ExpensePart);
    flow := [];
    var running := 0;
    for i := 0 to 12
      invariant |flow| == i
      invariant forall j :: 0 <= j < i ==>
        && flow[j].month == j + 1
        && flow[j].income == SumAt(rows, MonthKey(cal), j + 1, IncomePart)
        && flow[j].expense == SumAt(rows, MonthKey(cal), j + 1, ExpensePart)
        && flow[j].net == flow[j].income - flow[j].expense
      invariant i > 0 ==> flow[0].cumulativeNet == flow[0].net
      invariant forall j :: 0 < j < i ==> flow[j].cumulativeNet == flow[j - 1].cumulativeNet + flow[j].net
      invariant running == (if i == 0 then 0 else flow[i - 1].cumulativeNet)
      invariant running == SpreadSumAt(rows, MonthKey(cal), Signed, Months[..i])
    {
      var m := i + 1;
      MonthEntry(rows, cal, m);
      var inc := income[m];
      var exp := expense[m];
      running := running + (inc - exp);
      RunningStep(rows, cal, i);
      flow := flow + [MonthRow(m, inc, exp, inc - exp, running)];
    }
    assert Months[..12] == Months;
    YearRowsHaveMonths(txns, cal, loc);
    SpreadSumAtTotal(rows, MonthKey(cal), Signed, Months);
  }

  /** Month `m`'s slot of the month tallies holds that month's income and expense sums. */
  lemma MonthEntry(rows: seq<Transaction>, cal: seq<int>, m: int)
    requires 1 <= m <= 12
    ensures m in TallyInto(ZeroMonths, rows, MonthKey(cal), IncomePart)
    ensures m in TallyInto(ZeroMonths, rows, MonthKey(cal), ExpensePart)
    ensures TallyInto(ZeroMonths, rows, MonthKey(cal), IncomePart)[m] == SumAt(rows, MonthKey(cal), m, IncomePart)
    ensures TallyInto(ZeroMonths, rows, MonthKey(cal), ExpensePart)[m] == SumAt(rows, MonthKey(cal), m, ExpensePart)
  {
    assert m in ZeroMonths;
    TallyIntoKeys(ZeroMonths, rows, MonthKey(cal), IncomePart);
    TallyIntoKeys(ZeroMonths, rows, MonthKey(cal), ExpensePart);
    TallyIntoGet(ZeroMonths, rows, MonthKey(cal), IncomePart, m);
    TallyIntoGet(ZeroMonths, rows, MonthKey(cal), ExpensePart, m);
  }

  /** Adding month `i + 1`'s net to the running total of the first `i` months. */
  lemma RunningStep(rows: seq<Transaction>, cal: seq<int>, i: int)
    requires 0 <= i < 12
    ensures SpreadSumAt(rows, MonthKey(cal), Signed, Months[..i + 1])
         == SpreadSumAt(rows, MonthKey(cal), Signed, Months[..i])
            + (SumAt(rows, MonthKey(cal), i + 1, IncomePart) - SumAt(rows, MonthKey(cal), i + 1, ExpensePart))
  {
    SpreadSumAtSnoc(rows, MonthKey(cal), Signed, Months[..i], i + 1);
    assert Months[..i + 1] == Months[..i] + [i + 1];
    SumAtSigned(rows, MonthKey(cal), i + 1);
  }

  /** Every entry of the year carries a month from 1 to 12. */
  lemma YearRowsHaveMonths(txns: seq<Transaction>, cal: seq<int>, loc: Option<Location>)
    requires ValidCalendar(cal)
    ensures NoDup(Months)
    ensures forall i :: 0 <= i < |YearRows(txns, cal, loc)| ==> MonthKey(cal)(YearRows(txns, cal, loc)[i]) in Months
  {
    var rows := YearRows(txns, cal, loc);
    forall i | 0 <= i < |rows| ensures MonthKey(cal)(rows[i]) in Months {
      assert InPeriod(YearWindow(cal), loc)(rows[i]);
      MonthOfInYear(cal, rows[i].date, 1);
    }
  }

  lemma {:induction false} SpreadSumAtSnoc<T, K>(s: seq<T>, key: T -> K, f: T -> int, ks: seq<K>, k: K)
    ensures SpreadSumAt(s, key, f, ks + [k]) == SpreadSumAt(s, key, f, ks) + SumAt(s, key, k, f)
    decreases |ks|
  {
    if |ks| == 0 {
      assert ks + [k] == [k];
      assert [k][1..] == [];
    } else {
      assert (ks + [k])[1..] == ks[1..] + [k];
      SpreadSumAtSnoc(s, key, f, ks[1..], k);
    }
  }

  lemma {:induction false} SumAtSigned<K>(s: seq<Transaction>, key: Transaction -> K, k: K)
    ensures SumAt(s, key, k, Signed) == SumAt(s, key, k, IncomePart) - SumAt(s, key, k, ExpensePart)
    decreases |s|
  {
    if |s| > 0 {
      SumAtSigned(s[1..], key, k);
    }
  }

  /** A month of the cash flow and the financial summary of that month agree on income and expense. */
  lemma CashFlowMatchesSummary(txns: seq<Transaction>, cal: seq<int>, loc: Option<Location>, m: int)
    requires ValidCalendar(cal)
    requires 1 <= m <= 12
    ensures SumAt(YearRows(txns, cal, loc), MonthKey(cal), m, IncomePart)
         == FinancialSummary(txns, MonthWindow(cal, m), loc).incomeTotal
    ensures SumAt(YearRows(txns, cal, loc), MonthKey(cal), m, ExpensePart)
         == FinancialSummary(txns, MonthWindow(cal, m), loc).expenseTotal
  {
    var monthRows := Filter(txns, InPeriod(MonthWindow(cal, m), loc));
    YearSumAtIsMonthSum(txns, cal, loc, m, IncomePart);
    YearSumAtIsMonthSum(txns, cal, loc, m, ExpensePart);
    SumFilterMask(monthRows, IsIncome, Amount, IncomePart);
    SumFilterMask(monthRows, IsExpense, Amount, ExpensePart);
  }

  lemma {:induction false} YearSumAtIsMonthSum(txns: seq<Transaction>, cal: seq<int>, loc: Option<Location>, m: int, f: Transaction -> int)
    requires ValidCalendar(cal)
    requires 1 <= m <= 12
    ensures SumAt(YearRows(txns, cal, loc), MonthKey(cal), m, f)
         == Sum(Filter(txns, InPeriod(MonthWindow(cal, m), loc)), f)
    decreases |txns|
  {
    if |txns| > 0 {
      var t := txns[0];
      YearSumAtIsMonthSum(txns[1..], cal, loc, m, f);
      MonthOfSpec(cal, t.date, m);
      assert cal[0] <= cal[m - 1] && cal[m] <= cal[12] by {
        if m > 1 { assert cal[0] < cal[m - 1]; }
        if m < 12 { assert cal[m] < cal[12]; }
      }
      assert InPeriod(MonthWindow(cal, m), loc)(t) <==> InPeriod(YearWindow(cal), loc)(t) && MonthKey(cal)(t) == m;
    }
  }

  // ---------------------------------------------------------------------------------------------
  // Account balances

  /** Completed entries booked to an account (there is no date window). */
  predicate Posted(t: Transaction) { t.status == Completed && t.account.Some? }

  /** The account of a posted entry. */
  function AccountKey(t: Transaction): Account { t.account.GetOr(CashJapan) }

  datatype Balances = Balances(balances: map<Account, int>, total: int)

  const NoBalances: map<Account, int> := map[CashJapan := 0, CashDubai := 0, BankJapan := 0, BankDubai := 0]

  /**
   * `GET /transactions/balances`: each of the four accounts holds its posted income minus its posted
   * expense (transfers and entries without an account count for nothing), and the total is the sum of
   * the four.
   */
  function AccountBalances(txns: seq<Transaction>): (r: Balances)
    ensures r.balances.Keys == {CashJapan, CashDubai, BankJapan, BankDubai}
    ensures forall a :: a in r.balances ==> r.balances[a] == SumAt(Filter(txns, Posted), AccountKey, a, Signed)
    ensures r.total == Sum(Filter(txns, Posted), IncomePart) - Sum(Filter(txns, Posted), ExpensePart)
  {
    var posted := Filter(txns, Posted);
    var balances := TallyInto(NoBalances, posted, AccountKey, Signed);
    AccountTally(posted);
    SumSub(posted, IncomePart, ExpensePart, Signed);
    Balances(balances, Spread(balances, AllAccounts))
  }

  /** Tallying the entries into the four zeroed accounts gives each account the signed sum of its
      entries, and the four balances together the signed sum of all of them. */
  lemma AccountTally(posted: seq<Transaction>)
    ensures TallyInto(NoBalances, posted, AccountKey, Signed).Keys == {CashJapan, CashDubai, BankJapan, BankDubai}
    ensures forall a :: a in TallyInto(NoBalances, posted, AccountKey, Signed) ==>
      TallyInto(NoBalances, posted, AccountKey, Signed)[a] == SumAt(posted, AccountKey, a, Signed)
    ensures Spread(TallyInto(NoBalances, posted, AccountKey, Signed), AllAccounts) == Sum(posted, Signed)
  {
    var balances := TallyInto(NoBalances, posted, AccountKey, Signed);
    TallyIntoKeys(NoBalances, posted, AccountKey, Signed);
    AccountsListed(posted);
    forall a | a in balances ensures balances[a] == SumAt(posted, AccountKey, a, Signed) {
      TallyIntoGet(NoBalances, posted, AccountKey, Signed, a);
    }
    SpreadOfTallyInto(NoBalances, posted, AccountKey, Signed, AllAccounts);
    SpreadSumAtTotal(posted, AccountKey, Signed, AllAccounts);
  }

  lemma AccountsListed(posted: seq<Transaction>)
    ensures NoDup(AllAccounts)
    ensures forall i :: 0 <= i < |posted| ==> AccountKey(posted[i]) in AllAccounts
    ensures Spread(NoBalances, AllAccounts) == 0
    ensures KeysOf(posted, AccountKey) <= NoBalances.Keys
  {
    forall i | 0 <= i < |posted| ensures AccountKey(posted[i]) in AllAccounts {
      match AccountKey(posted[i])
      case CashJapan => case CashDubai => case BankJapan => case BankDubai =>
    }
  }

  /** An entry with no account, such as every payment recorded against an order, leaves every
      account balance and the total unchanged. */
  lemma UnbookedEntryLeavesBalances(txns: seq<Transaction>, t: Transaction)
    requires t.account.None?
    ensures AccountBalances(txns + [t]) == AccountBalances(txns)
  {
    FilterAppend(txns, [t], Posted);
    assert Filter([t], Posted) == [];
    assert Filter(txns, Posted) + [] == Filter(txns, Posted);
  }

  /** So an order payment shows up in the income of its month and location but in no account. */
  lemma PaymentsBypassAccounts(txns: seq<Transaction>, o: Order, orderId: Id, amount: int,
                               via: Option<PaymentMethod>, today: int)
    ensures AccountBalances(txns + [Orders.PaymentEntry(o, orderId, amount, via, today)]) == AccountBalances(txns)
  {
    UnbookedEntryLeavesBalances(txns, Orders.PaymentEntry(o, orderId, amount, via, today));
  }
}
