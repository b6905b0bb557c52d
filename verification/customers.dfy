/**
 * Customers (api/src/controllers/customerController.js): the `isActive` filter of the customer list,
 * and a customer's outstanding balance and remaining credit.
 */
module Customers {
  import opened Wrappers
  import opened Folds
  import opened Records
  import opened Tables
  import Orders
  import Reports

  // ---------------------------------------------------------------------------------------------
  // The isActive filter

  /**
   * The `isActive` query parameter as a filter: none when the parameter is absent; otherwise the
   * exact string "true" selects active customers and every other string inactive ones.
   */
  function ActiveFilter(param: Option<string>): (r: Option<bool>)
    ensures r.None? <==> param.None?
    ensures r.Some? ==> (r.value <==> param.value == "true")
  {
    match param
    case None => None
    case Some(text) => Some(text == "true")
  }

  function Matches(filter: Option<bool>): Customer -> bool
  {
    (c: Customer) => filter.None? || c.isActive == filter.value
  }

  /** The customers the list returns for a value of the parameter (before paging). */
  function Listed(cs: seq<Customer>, param: Option<string>): (r: seq<Customer>)
    ensures forall c :: c in r <==> c in cs && Matches(ActiveFilter(param))(c)
  {
    var kept := Filter(cs, Matches(ActiveFilter(param)));
    forall c ensures c in kept <==> c in cs && Matches(ActiveFilter(param))(c) {
      FilterMembers(cs, Matches(ActiveFilter(param)), c);
    }
    kept
  }

  /**
   * Without the parameter every customer is listed; with it, the listing for "true" and the listing
   * for any other string split the customers between them.
   */
  lemma ActiveFilterSplits(cs: seq<Customer>, other: string)
    requires other != "true"
    ensures Listed(cs, None) == cs
    ensures |Listed(cs, Some("true"))| + |Listed(cs, Some(other))| == |cs|
    ensures forall c :: c in Listed(cs, Some("true")) <==> c in cs && c.isActive
    ensures forall c :: c in Listed(cs, Some(other)) <==> c in cs && !c.isActive
  {
    FilterAll(cs, Matches(None));
    FilterSplitCount(cs, Matches(Some(true)), Matches(Some(false)));
  }

  // ---------------------------------------------------------------------------------------------
  // Balance

  datatype Balance = Balance(
    creditLimit: int,
    currentBalance: int,
    outstandingOrders: int,
    totalOutstanding: int,
    availableCredit: int)

  /** The customer's orders that are not fully paid (refunded ones included). */
  function OwedBy(id: Id): Order -> bool
  {
    (o: Order) => o.customerId == id && o.paymentStatus != Paid
  }

  /**
   * `GET /customers/:id/balance`: 404 for a missing customer; otherwise the number of the customer's
   * orders not marked paid, the sum of their unpaid remainders, and the credit limit less that sum.
   */
  function GetBalance(customers: map<Id, Customer>, orders: seq<Order>, id: Id): (r: Checked<Balance>)
    ensures r.Pass? <==> id in customers
    ensures r.Fail? ==> r.error == NotFound
    ensures r.Pass? ==>
      var owed := Filter(orders, OwedBy(id));
      && r.value.creditLimit == customers[id].creditLimit
      && r.value.currentBalance == customers[id].currentBalance
      && r.value.outstandingOrders == |owed|
      && (forall o :: o in owed <==> o in orders && o.customerId == id && o.paymentStatus != Paid)
      && r.value.totalOutstanding == Sum(owed, Orders.BalanceOf)
      && r.value.availableCredit == customers[id].creditLimit - r.value.totalOutstanding
  {
    if id !in customers then Fail(NotFound)
    else
      var c := customers[id];
      var owed := Filter(orders, OwedBy(id));
      forall o ensures o in owed <==> o in orders && o.customerId == id && o.paymentStatus != Paid {
        FilterMembers(orders, OwedBy(id), o);
      }
      var total := Sum(owed, Orders.BalanceOf);
      Pass(Balance(c.creditLimit, c.currentBalance, |owed|, total, c.creditLimit - total))
  }

  function CustomerOf(o: Order): Id { o.customerId }

  /** The outstanding totals of the listed customers, added up (zero for an unknown one). */
  function OutstandingOf(customers: map<Id, Customer>, orders: seq<Order>, ks: seq<Id>): int
  {
    if |ks| == 0 then 0
    else
      var b := GetBalance(customers, orders, ks[0]);
      (if b.Pass? then b.value.totalOutstanding else 0) + OutstandingOf(customers, orders, ks[1..])
  }

  /**
   * The customers' balances and the receivables report agree: over a list of customers, each once,
   * that holds the customer of every order not fully paid, the outstanding totals add up to the total
   * receivables.
   */
  lemma BalancesAddUpToReceivables(customers: map<Id, Customer>, orders: seq<Order>, ks: seq<Id>, today: int)
    requires NoDup(ks)
    requires forall i :: 0 <= i < |ks| ==> ks[i] in customers
    requires forall o :: o in orders && o.paymentStatus != Paid ==> o.customerId in ks
    ensures OutstandingOf(customers, orders, ks) == Reports.Receivables(orders, today).summary.totalReceivables
  {
    var open := Filter(orders, Reports.Unsettled);
    OutstandingIsSpread(customers, orders, ks);
    forall i | 0 <= i < |open| ensures CustomerOf(open[i]) in ks {
      FilterMembers(orders, Reports.Unsettled, open[i]);
      assert open[i] in open;
    }
    SpreadSumAtTotal(open, CustomerOf, Orders.BalanceOf, ks);
  }

  lemma {:induction false} OutstandingIsSpread(customers: map<Id, Customer>, orders: seq<Order>, ks: seq<Id>)
    requires forall i :: 0 <= i < |ks| ==> ks[i] in customers
    ensures OutstandingOf(customers, orders, ks)
         == SpreadSumAt(Filter(orders, Reports.Unsettled), CustomerOf, Orders.BalanceOf, ks)
    decreases |ks|
  {
    if |ks| > 0 {
      var k := ks[0];
      var open := Filter(orders, Reports.Unsettled);
      var ofK := (o: Order) => CustomerOf(o) == k;
      FilterFilter(orders, Reports.Unsettled, ofK, OwedBy(k));
      SumAtFilter(open, CustomerOf, k, Orders.BalanceOf, ofK);
      OutstandingIsSpread(customers, orders, ks[1..]);
    }
  }
}
