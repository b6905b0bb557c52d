/**
 * The cross-entity reports of api/src/controllers/reportController.js: the dashboard's inventory
 * value and month-to-date revenue, the container profit-and-loss report, receivables with their aging
 * buckets, and payables by expense type.
 */
module Reports {
  import opened Wrappers
  import opened Records
  import opened Folds
  import opened Containers
  import Orders

  // ---------------------------------------------------------------------------------------------
  // Dashboard

  /** In-stock parts, at the location when one is given. */
  function StockedAt(loc: Option<Location>): Item -> bool
  {
    (p: Item) => p.status == InStock && AtLocation(loc, p.location)
  }

  /** The dashboard's inventory value: cost price times quantity over the in-stock parts. */
  function InventoryValue(items: seq<Item>, loc: Option<Location>): int
  {
    Sum(Filter(items, StockedAt(loc)), CostValue)
  }

  /** Orders dated on or after the first of the month, at the location when one is given. */
  function OrderedSince(start: int, loc: Option<Location>): Order -> bool
  {
    (o: Order) => o.orderDate >= start && AtLocation(loc, o.location)
  }

  /** The dashboard's month-to-date revenue and order count; cancelled orders are not excluded. */
  datatype MonthToDate = MonthToDate(revenue: int, orders: int)

  function DashboardMonth(orders: seq<Order>, start: int, loc: Option<Location>): (r: MonthToDate)
    ensures r.orders <= |orders|
  {
    var rows := Filter(orders, OrderedSince(start, loc));
    MonthToDate(Sum(rows, Orders.TotalOf), |rows|)
  }

  /** Adding one order to the table moves the month-to-date figures exactly when the order is dated
      on or after the first of the month at the chosen location: the count by one and the revenue
      by the order's total, whatever its status. Together with the empty table giving zero, this
      fixes both figures for every table. */
  lemma DashboardMonthGrows(orders: seq<Order>, o: Order, start: int, loc: Option<Location>)
    ensures DashboardMonth([], start, loc) == MonthToDate(0, 0)
    ensures var before := DashboardMonth(orders, start, loc);
      var after := DashboardMonth(orders + [o], start, loc);
      var counted := o.orderDate >= start && AtLocation(loc, o.location);
      && after.orders == before.orders + (if counted then 1 else 0)
      && after.revenue == before.revenue + (if counted then o.totalAmount else 0)
  {
    var since := OrderedSince(start, loc);
    FilterAppend(orders, [o], since);
    SumAppend(Filter(orders, since), Filter([o], since), Orders.TotalOf);
  }

  /** The unfiltered inventory value is the Japan value plus the Dubai value. */
  lemma InventoryValueByLocation(items: seq<Item>)
    ensures InventoryValue(items, None) == InventoryValue(items, Some(Japan)) + InventoryValue(items, Some(Dubai))
  {
    var all := Filter(items, StockedAt(None));
    var inJapan := (p: Item) => p.location == Japan;
    var inDubai := (p: Item) => p.location == Dubai;
    SumFilterSplit(all, inJapan, inDubai, CostValue);
    FilterFilter(items, StockedAt(None), inJapan, StockedAt(Some(Japan)));
    FilterFilter(items, StockedAt(None), inDubai, StockedAt(Some(Dubai)));
  }

  /** Cancelled orders in the month, at the location when one is given. */
  function CancelledIn(w: Window, loc: Option<Location>): Order -> bool
  {
    (o: Order) => InWindow(w, o.orderDate) && o.status == Cancelled && AtLocation(loc, o.location)
  }

  /**
   * When no order is dated after the month's last day, the dashboard's month-to-date revenue is the
   * monthly-sales revenue plus the totals of the month's cancelled orders: the two screens disagree
   * exactly by the cancelled orders.
   */
  lemma DashboardCountsCancelled(orders: seq<Order>, w: Window, loc: Option<Location>)
    requires forall i :: 0 <= i < |orders| ==> orders[i].orderDate <= w.hi
    ensures DashboardMonth(orders, w.lo, loc).revenue
         == Orders.MonthlySales(orders, w, loc).totalRevenue + Sum(Filter(orders, CancelledIn(w, loc)), Orders.TotalOf)
    ensures DashboardMonth(orders, w.lo, loc).orders
         == Orders.MonthlySales(orders, w, loc).totalOrders + |Filter(orders, CancelledIn(w, loc))|
  {
    var since := OrderedSince(w.lo, loc);
    var rows := Filter(orders, since);
    var kept := (o: Order) => o.status != Cancelled;
    var dropped := (o: Order) => o.status == Cancelled;
    var sinceKept := (o: Order) => since(o) && kept(o);
    var sinceDropped := (o: Order) => since(o) && dropped(o);
    SumFilterSplit(rows, kept, dropped, Orders.TotalOf);
    SumFilterSplit(rows, kept, dropped, Orders.OneOrder);
    SumOnes(rows, Orders.OneOrder);
    SumOnes(Filter(rows, kept), Orders.OneOrder);
    SumOnes(Filter(rows, dropped), Orders.OneOrder);
    FilterFilter(orders, since, kept, sinceKept);
    FilterFilter(orders, since, dropped, sinceDropped);
    FilterCongruent(orders, sinceKept, Orders.InMonth(w, loc));
    FilterCongruent(orders, sinceDropped, CancelledIn(w, loc));
  }

  // ---------------------------------------------------------------------------------------------
  // Container profit-and-loss report

  /** The five cost components of a container row, each 0 when NULL. */
  function ComponentCosts(c: Container): int
  {
    OrZero(c.shippingCost) + OrZero(c.insuranceCost) + OrZero(c.customsDuty)
      + OrZero(c.clearanceFees) + OrZero(c.transportCost)
  }

  datatype ReportRow = ReportRow(
    containerCosts: int,
    vehicleCosts: int,
    totalCost: int,
    revenue: int,
    unsoldValue: int,
    realized: int,
    projected: int,
    vehicleCount: int)

  /** One container's row; unlike the single-container screen its cost is the sum of the components. */
  function RowOf(sh: Shipment): ReportRow
  {
    var containerCosts := ComponentCosts(sh.container);
    var vehicleCosts := Sum(sh.vehicles, PurchaseOf);
    var revenue := Sum(PartsWhere(sh.vehicles, IsSold), SaleValue);
    var unsold := Sum(PartsWhere(sh.vehicles, IsUnsold), CostValue);
    var total := containerCosts + vehicleCosts;
    ReportRow(containerCosts, vehicleCosts, total, revenue, unsold, revenue - total, revenue + unsold - total,
              |sh.vehicles|)
  }

  /**
   * A part that an order sells out is marked sold with its quantity at zero, so the revenue both
   * profit-and-loss screens credit for it, selling price times remaining quantity, is zero.
   */
  lemma SoldOutPartEarnsNothing(it: Item)
    ensures IsSold(Orders.Take(it, it.quantity))
    ensures SaleValue(Orders.Take(it, it.quantity)) == 0
  {
  }

  /** Without a window every container; with one, the containers whose arrival date lies in it. */
  function ArrivedIn(w: Option<Window>): Shipment -> bool
  {
    (sh: Shipment) => w.None? || (sh.container.arrivalDate.Some? && InWindow(w.value, sh.container.arrivalDate.value))
  }

  datatype PLSummary = PLSummary(
    totalContainers: int,
    totalCost: int,
    totalRevenue: int,
    totalUnsoldValue: int,
    realized: int,
    projected: int)

  datatype PLReport = PLReport(summary: PLSummary, rows: seq<ReportRow>)

  function RowCost(sh: Shipment): int { RowOf(sh).totalCost }
  function RowRevenue(sh: Shipment): int { RowOf(sh).revenue }
  function RowUnsold(sh: Shipment): int { RowOf(sh).unsoldValue }
  function RowRealized(sh: Shipment): int { RowOf(sh).realized }
  function RowProjected(sh: Shipment): int { RowOf(sh).projected }

  function ColCost(row: ReportRow): int { row.totalCost }
  function ColRevenue(row: ReportRow): int { row.revenue }
  function ColUnsold(row: ReportRow): int { row.unsoldValue }
  function ColRealized(row: ReportRow): int { row.realized }
  function ColProjected(row: ReportRow): int { row.projected }

  /** A count and five column sums, for any choice of the five columns. */
  function Columns<T>(s: seq<T>, cost: T -> int, revenue: T -> int, unsold: T -> int,
                      realized: T -> int, projected: T -> int): PLSummary
  {
    PLSummary(|s|, Sum(s, cost), Sum(s, revenue), Sum(s, unsold), Sum(s, realized), Sum(s, projected))
  }

  /** The summary block: a count and five column sums over the selected containers. */
  function Summarize(kept: seq<Shipment>): PLSummary
  {
    Columns(kept, RowCost, RowRevenue, RowUnsold, RowRealized, RowProjected)
  }

  /**
   * `GET /reports/container-profit-loss`: one row per container arrived in the window (every
   * container without one), in order. A row's cost is the five components plus the vehicles'
   * purchase prices, its revenue and unsold value are the vehicles' shares, and the summary balances
   * like a single row does: realized = revenue - cost, projected = realized + unsold.
   */
  function ContainerReport(shipments: seq<Shipment>, w: Option<Window>): (r: PLReport)
    ensures |r.rows| == r.summary.totalContainers <= |shipments|
    ensures var kept := Filter(shipments, ArrivedIn(w));
      && |r.rows| == |kept|
      && (forall i :: 0 <= i < |kept| ==>
            && (w.Some? ==> kept[i].container.arrivalDate.Some? && InWindow(w.value, kept[i].container.arrivalDate.value))
            && r.rows[i].containerCosts == ComponentCosts(kept[i].container)
            && r.rows[i].vehicleCosts == Sum(kept[i].vehicles, PurchaseOf)
            && r.rows[i].totalCost == r.rows[i].containerCosts + r.rows[i].vehicleCosts
            && r.rows[i].vehicleCount == |kept[i].vehicles|
            && r.rows[i].revenue == Sum(kept[i].vehicles, VehicleShare(IsSold, SaleValue))
            && r.rows[i].unsoldValue == Sum(kept[i].vehicles, VehicleShare(IsUnsold, CostValue))
            && r.rows[i].realized == r.rows[i].revenue - r.rows[i].totalCost
            && r.rows[i].projected == r.rows[i].realized + r.rows[i].unsoldValue)
    ensures r.summary.totalCost == Sum(r.rows, ColCost)
    ensures r.summary.totalRevenue == Sum(r.rows, ColRevenue)
    ensures r.summary.totalUnsoldValue == Sum(r.rows, ColUnsold)
    ensures r.summary.realized == Sum(r.rows, ColRealized)
    ensures r.summary.projected == Sum(r.rows, ColProjected)
    ensures r.summary.realized == r.summary.totalRevenue - r.summary.totalCost
    ensures r.summary.projected == r.summary.realized + r.summary.totalUnsoldValue
  {
    var kept := Filter(shipments, ArrivedIn(w));
    SummaryBalances(kept);
    RowsAreShares(kept);
    SummaryIsColumnSums(kept);
    PLReport(Summarize(kept), Map(kept, RowOf))
  }

  /** Each row's revenue and unsold value are the sums of its vehicles' shares. */
  lemma RowsAreShares(kept: seq<Shipment>)
    ensures forall i :: 0 <= i < |kept| ==>
      && RowOf(kept[i]).revenue == Sum(kept[i].vehicles, VehicleShare(IsSold, SaleValue))
      && RowOf(kept[i]).unsoldValue == Sum(kept[i].vehicles, VehicleShare(IsUnsold, CostValue))
  {
    forall i | 0 <= i < |kept|
      ensures RowOf(kept[i]).revenue == Sum(kept[i].vehicles, VehicleShare(IsSold, SaleValue))
      ensures RowOf(kept[i]).unsoldValue == Sum(kept[i].vehicles, VehicleShare(IsUnsold, CostValue))
    {
      PartsWhereSum(kept[i].vehicles, IsSold, SaleValue);
      PartsWhereSum(kept[i].vehicles, IsUnsold, CostValue);
    }
  }

  /** Each summary total is the sum of the matching column of the report's rows. */
  lemma SummaryIsColumnSums(kept: seq<Shipment>)
    ensures Summarize(kept).totalCost == Sum(Map(kept, RowOf), ColCost)
    ensures Summarize(kept).totalRevenue == Sum(Map(kept, RowOf), ColRevenue)
    ensures Summarize(kept).totalUnsoldValue == Sum(Map(kept, RowOf), ColUnsold)
    ensures Summarize(kept).realized == Sum(Map(kept, RowOf), ColRealized)
    ensures Summarize(kept).projected == Sum(Map(kept, RowOf), ColProjected)
  {
    SumMap(kept, RowOf, ColCost, RowCost);
    SumMap(kept, RowOf, ColRevenue, RowRevenue);
    SumMap(kept, RowOf, ColUnsold, RowUnsold);
    SumMap(kept, RowOf, ColRealized, RowRealized);
    SumMap(kept, RowOf, ColProjected, RowProjected);
  }

  /** Column sums preserve the per-row identities. */
  lemma SummaryBalances(kept: seq<Shipment>)
    ensures Summarize(kept).realized == Summarize(kept).totalRevenue - Summarize(kept).totalCost
    ensures Summarize(kept).projected == Summarize(kept).realized + Summarize(kept).totalUnsoldValue
  {
    SumSub(kept, RowRevenue, RowCost, RowRealized);
    SumAdd(kept, RowRealized, RowUnsold, RowProjected);
  }

  function Plus(a: PLSummary, b: PLSummary): PLSummary
  {
    PLSummary(a.totalContainers + b.totalContainers, a.totalCost + b.totalCost, a.totalRevenue + b.totalRevenue,
              a.totalUnsoldValue + b.totalUnsoldValue, a.realized + b.realized, a.projected + b.projected)
  }

  /** The report's summary is the summary of the containers the window keeps. */
  lemma ReportSummary(shipments: seq<Shipment>, w: Option<Window>)
    ensures ContainerReport(shipments, w).summary == Summarize(Filter(shipments, ArrivedIn(w)))
  {
  }

  /** When every column of `s` is the sum of the columns of `a` and `b`, so is the whole block. */
  lemma ColumnsPlus<T>(s: seq<T>, a: seq<T>, b: seq<T>, cost: T -> int, revenue: T -> int, unsold: T -> int,
                       realized: T -> int, projected: T -> int)
    requires |s| == |a| + |b|
    requires Sum(s, cost) == Sum(a, cost) + Sum(b, cost)
    requires Sum(s, revenue) == Sum(a, revenue) + Sum(b, revenue)
    requires Sum(s, unsold) == Sum(a, unsold) + Sum(b, unsold)
    requires Sum(s, realized) == Sum(a, realized) + Sum(b, realized)
    requires Sum(s, projected) == Sum(a, projected) + Sum(b, projected)
    ensures Columns(s, cost, revenue, unsold, realized, projected)
         == Plus(Columns(a, cost, revenue, unsold, realized, projected),
                 Columns(b, cost, revenue, unsold, realized, projected))
  {
  }

  /** Column sums add up over concatenation. */
  lemma ColumnsAppend<T>(a: seq<T>, b: seq<T>, cost: T -> int, revenue: T -> int, unsold: T -> int,
                         realized: T -> int, projected: T -> int)
    ensures Columns(a + b, cost, revenue, unsold, realized, projected)
         == Plus(Columns(a, cost, revenue, unsold, realized, projected),
                 Columns(b, cost, revenue, unsold, realized, projected))
  {
    SumAppend(a, b, cost);
    SumAppend(a, b, revenue);
    SumAppend(a, b, unsold);
    SumAppend(a, b, realized);
    SumAppend(a, b, projected);
    ColumnsPlus(a + b, a, b, cost, revenue, unsold, realized, projected);
  }

  /** Summaries add up over concatenation. */
  lemma SummarizeAppend(a: seq<Shipment>, b: seq<Shipment>)
    ensures Summarize(a + b) == Plus(Summarize(a), Summarize(b))
  {
    ColumnsAppend(a, b, RowCost, RowRevenue, RowUnsold, RowRealized, RowProjected);
  }

  /** The report is additive: reporting on two batches of containers at once sums their summaries. */
  lemma ReportSplits(a: seq<Shipment>, b: seq<Shipment>, w: Option<Window>)
    ensures ContainerReport(a + b, w).summary == Plus(ContainerReport(a, w).summary, ContainerReport(b, w).summary)
  {
    var p := ArrivedIn(w);
    FilterAppend(a, b, p);
    ReportSummary(a + b, w);
    ReportSummary(a, w);
    ReportSummary(b, w);
    SummarizeAppend(Filter(a, p), Filter(b, p));
  }

  /** Containers that the window leaves out: no arrival date, or one outside the window. */
  function ArrivedOutside(w: Window): Shipment -> bool
  {
    (sh: Shipment) => !(sh.container.arrivalDate.Some? && InWindow(w, sh.container.arrivalDate.value))
  }

  /** Splitting a sequence by a test and its negation splits the count and every column sum. */
  lemma ColumnsSplit<T>(s: seq<T>, p: T -> bool, q: T -> bool, cost: T -> int, revenue: T -> int,
                        unsold: T -> int, realized: T -> int, projected: T -> int)
    requires forall x :: q(x) == !p(x)
    ensures Columns(s, cost, revenue, unsold, realized, projected)
         == Plus(Columns(Filter(s, p), cost, revenue, unsold, realized, projected),
                 Columns(Filter(s, q), cost, revenue, unsold, realized, projected))
  {
    FilterSplitCount(s, p, q);
    SumFilterSplit(s, p, q, cost);
    SumFilterSplit(s, p, q, revenue);
    SumFilterSplit(s, p, q, unsold);
    SumFilterSplit(s, p, q, realized);
    SumFilterSplit(s, p, q, projected);
  }

  /** Splitting the containers by a test and its negation splits the summary. */
  lemma SummarizeSplit(shipments: seq<Shipment>, p: Shipment -> bool, q: Shipment -> bool)
    requires forall x :: q(x) == !p(x)
    ensures Summarize(shipments) == Plus(Summarize(Filter(shipments, p)), Summarize(Filter(shipments, q)))
  {
    ColumnsSplit(shipments, p, q, RowCost, RowRevenue, RowUnsold, RowRealized, RowProjected);
  }

  /** A window partitions the containers: the unwindowed summary is the windowed one plus the
      summary of the containers it leaves out. */
  lemma WindowPartitions(shipments: seq<Shipment>, w: Window)
    ensures ContainerReport(shipments, None).summary
         == Plus(ContainerReport(shipments, Some(w)).summary, Summarize(Filter(shipments, ArrivedOutside(w))))
  {
    FilterAll(shipments, ArrivedIn(None));
    SummarizeSplit(shipments, ArrivedIn(Some(w)), ArrivedOutside(w));
  }

  /**
   * The report row and the single-container screen agree on vehicle costs, revenue and unsold value,
   * and their total costs differ exactly by the component sum minus the stored total: they agree on
   * cost (and so on profit) exactly when the stored total equals the sum of the five components.
   */
  lemma ReportVersusDetail(catalog: map<Id, Shipment>, id: Id)
    requires id in catalog
    ensures var sh := catalog[id];
      var f := ProfitLoss(catalog, id).value;
      var row := RowOf(sh);
      && row.vehicleCosts == f.vehicleCosts
      && row.revenue == f.revenue
      && row.unsoldValue == f.unsoldValue
      && row.vehicleCount == f.vehicleCount
      && row.totalCost - f.totalCost == ComponentCosts(sh.container) - OrZero(sh.container.totalCost)
      && (row.realized == f.realized <==> ComponentCosts(sh.container) == OrZero(sh.container.totalCost))
  {
  }

  // ---------------------------------------------------------------------------------------------
  // Receivables

  /** An order row with its balance and its age in days on the report date. */
  datatype Receivable = Receivable(order: Order, balance: int, daysOutstanding: int)

  datatype Aging = Aging(current: int, days31to60: int, days61to90: int, over90: int)

  datatype ReceivablesSummary = ReceivablesSummary(totalReceivables: int, orderCount: int, aging: Aging)

  datatype ReceivablesReport = ReceivablesReport(summary: ReceivablesSummary, rows: seq<Receivable>)

  /** Every order whose payment status is not `paid`, whatever its order status. */
  predicate Unsettled(o: Order) { o.paymentStatus != Paid }

  /** `today` is the report's day number; an order's age is the whole days since its order date. */
  function ReceivableOf(today: int): Order -> Receivable
  {
    (o: Order) => Receivable(o, o.totalAmount - o.paidAmount, today - o.orderDate)
  }

  function BalanceDue(r: Receivable): int { r.balance }
  predicate Current(r: Receivable) { r.daysOutstanding <= 30 }
  predicate Days31To60(r: Receivable) { 30 < r.daysOutstanding <= 60 }
  predicate Days61To90(r: Receivable) { 60 < r.daysOutstanding <= 90 }
  predicate Over90(r: Receivable) { r.daysOutstanding > 90 }

  function AgingOf(rows: seq<Receivable>): Aging
  {
    Aging(Sum(Filter(rows, Current), BalanceDue), Sum(Filter(rows, Days31To60), BalanceDue),
          Sum(Filter(rows, Days61To90), BalanceDue), Sum(Filter(rows, Over90), BalanceDue))
  }

  /**
   * `GET /reports/receivables`: one row per unsettled order, the total of their balances, and that
   * total spread over four aging buckets which together cover it exactly.
   */
  function Receivables(orders: seq<Order>, today: int): (r: ReceivablesReport)
    ensures r.summary.orderCount == |r.rows| <= |orders|
    ensures forall i :: 0 <= i < |r.rows| ==> Unsettled(r.rows[i].order)
    ensures var open := Filter(orders, Unsettled);
      && |r.rows| == |open|
      && forall i :: 0 <= i < |open| ==>
           && r.rows[i].order == open[i]
           && r.rows[i].balance == open[i].totalAmount - open[i].paidAmount
           && r.rows[i].daysOutstanding == today - open[i].orderDate
    ensures forall o :: o in orders && Unsettled(o) ==> exists i :: 0 <= i < |r.rows| && r.rows[i].order == o
    ensures r.summary.totalReceivables == Sum(Filter(orders, Unsettled), Orders.BalanceOf)
    ensures var a := r.summary.aging;
      && a.current == Sum(Filter(r.rows, Current), BalanceDue)
      && a.days31to60 == Sum(Filter(r.rows, Days31To60), BalanceDue)
      && a.days61to90 == Sum(Filter(r.rows, Days61To90), BalanceDue)
      && a.over90 == Sum(Filter(r.rows, Over90), BalanceDue)
      && a.current + a.days31to60 + a.days61to90 + a.over90 == r.summary.totalReceivables
  {
    var open := Filter(orders, Unsettled);
    var rows := Map(open, ReceivableOf(today));
    SumMap(open, ReceivableOf(today), BalanceDue, Orders.BalanceOf);
    AgingCoversAll(rows);
    UnsettledHaveRows(orders, today);
    ReceivablesReport(ReceivablesSummary(Sum(rows, BalanceDue), |rows|, AgingOf(rows)), rows)
  }

  /** Every unsettled order of the table has a row of its own. */
  lemma UnsettledHaveRows(orders: seq<Order>, today: int)
    ensures forall o :: o in orders && Unsettled(o) ==>
      exists i :: 0 <= i < |Filter(orders, Unsettled)| && Map(Filter(orders, Unsettled), ReceivableOf(today))[i].order == o
  {
    var open := Filter(orders, Unsettled);
    var rows := Map(open, ReceivableOf(today));
    forall o | o in orders && Unsettled(o)
      ensures exists i :: 0 <= i < |open| && rows[i].order == o
    {
      FilterMembers(orders, Unsettled, o);
      var i :| 0 <= i < |open| && open[i] == o;
      assert rows[i] == ReceivableOf(today)(open[i]);
      assert rows[i].order == o;
    }
    assert rows == Map(Filter(orders, Unsettled), ReceivableOf(today));
  }

  /** Each row falls in exactly one aging bucket, so the buckets add up to the total balance. */
  lemma {:induction false} AgingCoversAll(rows: seq<Receivable>)
    ensures var a := AgingOf(rows);
      a.current + a.days31to60 + a.days61to90 + a.over90 == Sum(rows, BalanceDue)
  {
    if |rows| > 0 {
      AgingCoversAll(rows[1..]);
      SumFilterCons(rows, Current, BalanceDue);
      SumFilterCons(rows, Days31To60, BalanceDue);
      SumFilterCons(rows, Days61To90, BalanceDue);
      SumFilterCons(rows, Over90, BalanceDue);
    }
  }

  /** An order leaves the receivables exactly when it is settled: a settled order adds no row and
      nothing to the total, an unsettled one adds its balance. */
  lemma ReceivablesGrowByUnsettled(orders: seq<Order>, o: Order, today: int)
    ensures var before := Receivables(orders, today).summary;
      var after := Receivables(orders + [o], today).summary;
      && after.orderCount == before.orderCount + (if Unsettled(o) then 1 else 0)
      && after.totalReceivables == before.totalReceivables + (if Unsettled(o) then o.totalAmount - o.paidAmount else 0)
  {
    FilterAppend(orders, [o], Unsettled);
    SumAppend(Filter(orders, Unsettled), Filter([o], Unsettled), Orders.BalanceOf);
  }

  // ---------------------------------------------------------------------------------------------
  // Payables

  datatype PayablesSummary = PayablesSummary(totalPayables: int, expenseCount: int, byType: map<ExpenseType, int>)

  predicate Owed(e: Expense) { e.status == PendingExpense }
  function AmountOf(e: Expense): int { e.amount }
  function TypeOf(e: Expense): ExpenseType { e.kind }

  /**
   * `GET /reports/payables`: the pending expenses, their total and their totals per expense type.
   * Every type with a pending expense has an entry, each entry is the sum for that type, and the
   * entries add up to the total.
   */
  function Payables(expenses: seq<Expense>): (r: PayablesSummary)
    ensures r.expenseCount == |Filter(expenses, Owed)| <= |expenses|
    ensures r.totalPayables == Sum(Filter(expenses, Owed), AmountOf)
    ensures r.byType.Keys == KeysOf(Filter(expenses, Owed), TypeOf)
    ensures forall k :: k in r.byType ==> r.byType[k] == SumAt(Filter(expenses, Owed), TypeOf, k, AmountOf)
    ensures Spread(r.byType, AllExpenseTypes) == r.totalPayables
  {
    var owed := Filter(expenses, Owed);
    TallyMeaning(owed, TypeOf, AmountOf);
    ExpenseTypesListed();
    TallyTotal(owed, TypeOf, AmountOf, AllExpenseTypes);
    PayablesSummary(Sum(owed, AmountOf), |owed|, Tally(owed, TypeOf, AmountOf))
  }
}
