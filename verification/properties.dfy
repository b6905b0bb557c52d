/**
 * Properties (api/src/controllers/propertyController.js): the monthly income report of the active
 * properties, comparing the income booked against each property with its expected rent.
 */
module Properties {
  import opened Wrappers
  import opened Folds
  import opened Records
  import Ledger

  /** A property row with every ledger entry booked against it. */
  datatype Site = Site(id: Id, property: Property, transactions: seq<Transaction>)

  datatype PropertyRow = PropertyRow(
    id: Id,
    kind: PropertyType,
    location: Location,
    actualIncome: int,
    actualExpenses: int,
    netIncome: int,
    expectedRent: int,
    variance: int)

  datatype Group = Group(count: int, income: int, expenses: int)

  datatype IncomeSummary = IncomeSummary(
    totalProperties: int,
    totalIncome: int,
    totalExpenses: int,
    netIncome: int,
    byType: map<PropertyType, Group>,
    byLocation: map<Location, Group>)

  datatype IncomeReport = IncomeReport(summary: IncomeSummary, properties: seq<PropertyRow>)

  /** The properties reported: active ones, at the location when one is given. */
  function Reported(loc: Option<Location>): Site -> bool
  {
    (p: Site) => p.property.status == ActiveProperty && AtLocation(loc, p.property.location)
  }

  /** The entries the month covers: dated inside it, whatever their status. */
  function Booked(w: Window): Transaction -> bool
  {
    (t: Transaction) => InWindow(w, t.date)
  }

  /**
   * One property's line: the month's income entries and expense entries added up (transfers in
   * neither), their difference, the monthly rent (0 when absent) and the shortfall against it.
   */
  function RowOf(w: Window): Site -> PropertyRow
  {
    (p: Site) =>
      var booked := Filter(p.transactions, Booked(w));
      var income := Sum(Filter(booked, Ledger.IsIncome), Ledger.Amount);
      var expenses := Sum(Filter(booked, Ledger.IsExpense), Ledger.Amount);
      var rent := OrZero(p.property.monthlyRent);
      PropertyRow(p.id, p.property.kind, p.property.location, income, expenses, income - expenses,
                  rent, income - rent)
  }

  function IncomeOf(r: PropertyRow): int { r.actualIncome }
  function ExpensesOf(r: PropertyRow): int { r.actualExpenses }
  function NetOf(r: PropertyRow): int { r.netIncome }
  function OneRow(r: PropertyRow): int { 1 }
  function TypeOf(r: PropertyRow): PropertyType { r.kind }
  function LocationOf(r: PropertyRow): Location { r.location }
  function CountColumn(g: Group): int { g.count }
  function IncomeColumn(g: Group): int { g.income }
  function ExpensesColumn(g: Group): int { g.expenses }

  /** Three tallies over the same rows joined into one group per key. */
  function Groups<K>(counts: map<K, int>, income: map<K, int>, expenses: map<K, int>): (r: map<K, Group>)
    requires counts.Keys == income.Keys == expenses.Keys
    ensures Column(r, CountColumn) == counts
    ensures Column(r, IncomeColumn) == income
    ensures Column(r, ExpensesColumn) == expenses
  {
    map k | k in counts :: Group(counts[k], income[k], expenses[k])
  }

  /**
   * A line's net income is its income less its expenses, and its variance is its income less its
   * expected rent, which is the monthly rent or 0.
   */
  lemma RowArithmetic(w: Window, p: Site)
    ensures var row := RowOf(w)(p);
      && row.netIncome == row.actualIncome - row.actualExpenses
      && row.expectedRent == (if p.property.monthlyRent.Some? then p.property.monthlyRent.value else 0)
      && row.variance == row.actualIncome - row.expectedRent
  {
  }

  /**
   * The summary of the property lines: their sums, and the type and location groups, each counting
   * every line once and adding up to the income and expense totals.
   */
  function Summarize(rows: seq<PropertyRow>): (r: IncomeSummary)
    ensures r.totalProperties == |rows|
    ensures r.totalIncome == Sum(rows, IncomeOf)
    ensures r.totalExpenses == Sum(rows, ExpensesOf)
    ensures r.netIncome == Sum(rows, NetOf)
    ensures r.byType.Keys == KeysOf(rows, TypeOf)
    ensures forall k :: k in r.byType ==>
      r.byType[k] == Group(SumAt(rows, TypeOf, k, OneRow), SumAt(rows, TypeOf, k, IncomeOf),
                           SumAt(rows, TypeOf, k, ExpensesOf))
    ensures r.byLocation.Keys == KeysOf(rows, LocationOf)
    ensures forall l :: l in r.byLocation ==>
      r.byLocation[l] == Group(SumAt(rows, LocationOf, l, OneRow), SumAt(rows, LocationOf, l, IncomeOf),
                               SumAt(rows, LocationOf, l, ExpensesOf))
    ensures Spread(Column(r.byType, CountColumn), AllPropertyTypes) == r.totalProperties
    ensures Spread(Column(r.byType, IncomeColumn), AllPropertyTypes) == r.totalIncome
    ensures Spread(Column(r.byType, ExpensesColumn), AllPropertyTypes) == r.totalExpenses
    ensures Spread(Column(r.byLocation, CountColumn), AllLocations) == r.totalProperties
    ensures Spread(Column(r.byLocation, IncomeColumn), AllLocations) == r.totalIncome
    ensures Spread(Column(r.byLocation, ExpensesColumn), AllLocations) == r.totalExpenses
  {
    SumOnes(rows, OneRow);
    TallyMeaning(rows, TypeOf, OneRow);
    TallyMeaning(rows, TypeOf, IncomeOf);
    TallyMeaning(rows, TypeOf, ExpensesOf);
    TallyMeaning(rows, LocationOf, OneRow);
    TallyMeaning(rows, LocationOf, IncomeOf);
    TallyMeaning(rows, LocationOf, ExpensesOf);
    PropertyTypesListed();
    LocationsListed();
    TallyTotal(rows, TypeOf, OneRow, AllPropertyTypes);
    TallyTotal(rows, TypeOf, IncomeOf, AllPropertyTypes);
    TallyTotal(rows, TypeOf, ExpensesOf, AllPropertyTypes);
    TallyTotal(rows, LocationOf, OneRow, AllLocations);
    TallyTotal(rows, LocationOf, IncomeOf, AllLocations);
    TallyTotal(rows, LocationOf, ExpensesOf, AllLocations);
    IncomeSummary(
      |rows|, Sum(rows, IncomeOf), Sum(rows, ExpensesOf), Sum(rows, NetOf),
      Groups(Tally(rows, TypeOf, OneRow), Tally(rows, TypeOf, IncomeOf), Tally(rows, TypeOf, ExpensesOf)),
      Groups(Tally(rows, LocationOf, OneRow), Tally(rows, LocationOf, IncomeOf), Tally(rows, LocationOf, ExpensesOf)))
  }

  lemma {:induction false} NetIsIncomeLessExpenses(rows: seq<PropertyRow>)
    requires forall i :: 0 <= i < |rows| ==> rows[i].netIncome == rows[i].actualIncome - rows[i].actualExpenses
    ensures Sum(rows, NetOf) == Sum(rows, IncomeOf) - Sum(rows, ExpensesOf)
    decreases |rows|
  {
    if |rows| > 0 {
      NetIsIncomeLessExpenses(rows[1..]);
    }
  }

  /**
   * `GET /properties/income-report`: one line per active property at the location (all locations
   * when none is given), in the order of the rows, with those lacking entries in the month at zero;
   * the summary is that of the lines.
   */
  function GetIncomeReport(sites: seq<Site>, w: Window, loc: Option<Location>): (r: IncomeReport)
    ensures var kept := Filter(sites, Reported(loc));
      && |r.properties| == |kept|
      && (forall i :: 0 <= i < |kept| ==>
            var booked := Filter(kept[i].transactions, Booked(w));
            && r.properties[i].id == kept[i].id
            && kept[i].property.status == ActiveProperty
            && r.properties[i].actualIncome == Sum(Filter(booked, Ledger.IsIncome), Ledger.Amount)
            && r.properties[i].actualExpenses == Sum(Filter(booked, Ledger.IsExpense), Ledger.Amount)
            && r.properties[i].netIncome == r.properties[i].actualIncome - r.properties[i].actualExpenses)
    ensures forall i :: 0 <= i < |r.properties| ==> r.properties[i] in Map(sites, RowOf(w))
    ensures r.summary == Summarize(r.properties)
  {
    var kept := Filter(sites, Reported(loc));
    var rows := Map(kept, RowOf(w));
    forall i | 0 <= i < |rows| ensures rows[i] in Map(sites, RowOf(w)) {
      FilterMembers(sites, Reported(loc), kept[i]);
      assert kept[i] in kept;
      var j :| 0 <= j < |sites| && sites[j] == kept[i];
      assert Map(sites, RowOf(w))[j] == rows[i];
    }
    IncomeReport(Summarize(rows), rows)
  }

  /** The report's net income is its total income less its total expenses. */
  lemma SummaryNetBalances(sites: seq<Site>, w: Window, loc: Option<Location>)
    ensures var s := GetIncomeReport(sites, w, loc).summary;
      s.netIncome == s.totalIncome - s.totalExpenses
  {
    var r := GetIncomeReport(sites, w, loc);
    SummaryNetOf(r.properties);
  }

  /** When every line's net is its income less its expenses, so is the summary's. */
  lemma SummaryNetOf(rows: seq<PropertyRow>)
    requires forall i :: 0 <= i < |rows| ==> rows[i].netIncome == rows[i].actualIncome - rows[i].actualExpenses
    ensures Summarize(rows).netIncome == Summarize(rows).totalIncome - Summarize(rows).totalExpenses
  {
    NetIsIncomeLessExpenses(rows);
  }

  /**
   * A line's net income is the month's signed sum of its entries: transfers move neither income nor
   * expenses, and booking one more entry moves the net by its signed amount only.
   */
  lemma NetIsSignedSum(w: Window, p: Site)
    ensures RowOf(w)(p).netIncome == Sum(Filter(p.transactions, Booked(w)), Ledger.Signed)
  {
    var booked := Filter(p.transactions, Booked(w));
    SumFilterMask(booked, Ledger.IsIncome, Ledger.Amount, Ledger.IncomePart);
    SumFilterMask(booked, Ledger.IsExpense, Ledger.Amount, Ledger.ExpensePart);
    SumSub(booked, Ledger.IncomePart, Ledger.ExpensePart, Ledger.Signed);
  }

  lemma TransferChangesNothing(w: Window, p: Site, t: Transaction)
    requires t.kind == Transfer
    ensures var after := RowOf(w)(p.(transactions := p.transactions + [t]));
      && after.actualIncome == RowOf(w)(p).actualIncome
      && after.actualExpenses == RowOf(w)(p).actualExpenses
  {
    var booked := Filter(p.transactions, Booked(w));
    FilterAppend(p.transactions, [t], Booked(w));
    FilterAppend(booked, Filter([t], Booked(w)), Ledger.IsIncome);
    FilterAppend(booked, Filter([t], Booked(w)), Ledger.IsExpense);
    assert Filter(Filter([t], Booked(w)), Ledger.IsIncome) == [];
    assert Filter(Filter([t], Booked(w)), Ledger.IsExpense) == [];
    assert Filter(booked, Ledger.IsIncome) + [] == Filter(booked, Ledger.IsIncome);
    assert Filter(booked, Ledger.IsExpense) + [] == Filter(booked, Ledger.IsExpense);
  }
}
