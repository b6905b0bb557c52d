/**
 * Shipping containers (api/src/controllers/containerController.js): attaching a vehicle to a
 * container, and the profit and loss of one container computed from the container row, its vehicles
 * and the parts dismantled from them.
 */
module Containers {
  import opened Wrappers
  import opened Records
  import opened Folds
  import opened Tables

  /** A vehicle row with the parts dismantled from it, as the nested include loads them. */
  datatype Loaded = Loaded(vehicle: Vehicle, parts: seq<Item>)

  /** A container row with its vehicles. */
  datatype Shipment = Shipment(container: Container, vehicles: seq<Loaded>)

  // ---------------------------------------------------------------------------------------------
  // Attaching a vehicle

  /**
   * `POST /containers/:id/vehicles`: both rows must exist (404 otherwise, the container checked
   * first); the vehicle's container reference is overwritten, whatever it was.
   */
  function AddVehicle(s: Store, containerId: Id, vehicleId: Id): (r: Outcome<Vehicle>)
    ensures r.Ok? <==> containerId in s.containers && vehicleId in s.vehicles
    ensures r.Err? ==> r.error == NotFound
    ensures r.Ok? ==>
      && r.value.containerId == Some(containerId)
      && r.value.(containerId := s.vehicles[vehicleId].containerId) == s.vehicles[vehicleId]
      && r.store == s.(vehicles := s.vehicles[vehicleId := r.value])
  {
    if containerId !in s.containers then Err(NotFound)
    else if vehicleId !in s.vehicles then Err(NotFound)
    else
      var v := s.vehicles[vehicleId].(containerId := Some(containerId));
      Ok(s.(vehicles := s.vehicles[vehicleId := v]), v)
  }

  /** Attaching the same vehicle twice leaves the store as attaching it once. */
  lemma AddVehicleIdempotent(s: Store, containerId: Id, vehicleId: Id)
    requires AddVehicle(s, containerId, vehicleId).Ok?
    ensures var t := AddVehicle(s, containerId, vehicleId).store;
      AddVehicle(t, containerId, vehicleId) == AddVehicle(s, containerId, vehicleId).(store := t)
  {
  }

  /** Moving a vehicle to a second container leaves it in the second one only. */
  lemma AddVehicleLastWins(s: Store, c1: Id, c2: Id, vehicleId: Id)
    requires AddVehicle(s, c1, vehicleId).Ok?
    requires c2 in s.containers
    ensures var t := AddVehicle(s, c1, vehicleId).store;
      AddVehicle(t, c2, vehicleId) == AddVehicle(s, c2, vehicleId).(store := AddVehicle(t, c2, vehicleId).store)
      && AddVehicle(t, c2, vehicleId).store == AddVehicle(s, c2, vehicleId).store
  {
  }

  // ---------------------------------------------------------------------------------------------
  // Part values

  predicate IsSold(p: Item) { p.status == Sold }
  predicate IsUnsold(p: Item) { p.status == InStock }

  /** A sold part's revenue: its selling price (0 when it has none) times its recorded quantity. */
  function SaleValue(p: Item): int { OrZero(p.sellingPrice) * p.quantity }

  /** An unsold part's value: cost price times quantity. */
  function CostValue(p: Item): int { p.costPrice * p.quantity }

  function PurchaseOf(v: Loaded): int { v.vehicle.purchasePrice }
  function PartCount(v: Loaded): int { |v.parts| }

  /** The parts of all vehicles, vehicle after vehicle, that pass `keep` (a `flatMap` of a filter). */
  function PartsWhere(vs: seq<Loaded>, keep: Item -> bool): seq<Item>
  {
    if |vs| == 0 then [] else Filter(vs[0].parts, keep) + PartsWhere(vs[1..], keep)
  }

  /** One vehicle's share of a part total: its `keep`-parts valued by `f`. */
  function VehicleShare(keep: Item -> bool, f: Item -> int): Loaded -> int
  {
    (v: Loaded) => Sum(Filter(v.parts, keep), f)
  }

  /** Summing over the flattened parts is summing the vehicles' shares. */
  lemma {:induction false} PartsWhereSum(vs: seq<Loaded>, keep: Item -> bool, f: Item -> int)
    ensures Sum(PartsWhere(vs, keep), f) == Sum(vs, VehicleShare(keep, f))
    decreases |vs|
  {
    if |vs| > 0 {
      PartsWhereSum(vs[1..], keep, f);
      SumAppend(Filter(vs[0].parts, keep), PartsWhere(vs[1..], keep), f);
    }
  }

  lemma {:induction false} PartsWhereAppend(a: seq<Loaded>, b: seq<Loaded>, keep: Item -> bool)
    ensures PartsWhere(a + b, keep) == PartsWhere(a, keep) + PartsWhere(b, keep)
    decreases |a|
  {
    if |a| == 0 {
      assert a + b == b;
    } else {
      assert (a + b)[0] == a[0];
      assert (a + b)[1..] == a[1..] + b;
      PartsWhereAppend(a[1..], b, keep);
    }
  }

  /** A part is never both sold and in stock, so the two lists together hold at most every part. */
  lemma {:induction false} SoldUnsoldBound(vs: seq<Loaded>)
    ensures |PartsWhere(vs, IsSold)| + |PartsWhere(vs, IsUnsold)| <= Sum(vs, PartCount)
    decreases |vs|
  {
    if |vs| > 0 {
      SoldUnsoldBound(vs[1..]);
      FilterDisjointCount(vs[0].parts, IsSold, IsUnsold);
    }
  }

  // ---------------------------------------------------------------------------------------------
  // Profit and loss of one container

  datatype Financials = Financials(
    containerCosts: int,
    vehicleCosts: int,
    totalCost: int,
    revenue: int,
    unsoldValue: int,
    realized: int,
    projected: int,
    vehicleCount: int,
    soldParts: int,
    unsoldParts: int)

  /** The figures for a loaded container. The container's own cost is its stored total (0 when NULL). */
  function Figures(sh: Shipment): Financials
  {
    var containerCosts := OrZero(sh.container.totalCost);
    var vehicleCosts := Sum(sh.vehicles, PurchaseOf);
    var totalCost := containerCosts + vehicleCosts;
    var sold := PartsWhere(sh.vehicles, IsSold);
    var unsold := PartsWhere(sh.vehicles, IsUnsold);
    var revenue := Sum(sold, SaleValue);
    var unsoldValue := Sum(unsold, CostValue);
    Financials(containerCosts, vehicleCosts, totalCost, revenue, unsoldValue,
               revenue - totalCost, revenue + unsoldValue - totalCost,
               |sh.vehicles|, |sold|, |unsold|)
  }

  /**
   * `GET /containers/:id/profit-loss`. A missing container is a 404. Otherwise the container's own
   * cost is its stored total, the vehicles' cost their purchase prices; the revenue is the sum,
   * vehicle by vehicle, of its sold parts' sale values, the unsold value likewise of its in-stock
   * parts' cost values; the projected figure exceeds the realized one by exactly the unsold value; the
   * part counts are the lengths of the sold and in-stock lists, which together never exceed the
   * number of parts.
   */
  function ProfitLoss(catalog: map<Id, Shipment>, id: Id): (r: Checked<Financials>)
    ensures r.Pass? <==> id in catalog
    ensures r.Fail? ==> r.error == NotFound
    ensures r.Pass? ==>
      var sh := catalog[id];
      var f := r.value;
      && f.containerCosts == OrZero(sh.container.totalCost)
      && f.vehicleCosts == Sum(sh.vehicles, PurchaseOf)
      && f.totalCost == f.containerCosts + f.vehicleCosts
      && f.revenue == Sum(sh.vehicles, VehicleShare(IsSold, SaleValue))
      && f.unsoldValue == Sum(sh.vehicles, VehicleShare(IsUnsold, CostValue))
      && f.realized == f.revenue - f.totalCost
      && f.projected - f.realized == f.unsoldValue
      && f.vehicleCount == |sh.vehicles|
      && f.soldParts == |PartsWhere(sh.vehicles, IsSold)|
      && f.unsoldParts == |PartsWhere(sh.vehicles, IsUnsold)|
      && f.soldParts + f.unsoldParts <= Sum(sh.vehicles, PartCount)
  {
    if id !in catalog then Fail(NotFound)
    else
      var sh := catalog[id];
      PartsWhereSum(sh.vehicles, IsSold, SaleValue);
      PartsWhereSum(sh.vehicles, IsUnsold, CostValue);
      SoldUnsoldBound(sh.vehicles);
      Pass(Figures(sh))
  }

  /** Loading one more vehicle moves every figure by that vehicle's share alone: the cost by its
      purchase price, the revenue by its sold parts, the unsold value by its in-stock parts. */
  lemma LoadingVehicleShifts(sh: Shipment, v: Loaded)
    ensures var before := Figures(sh);
      var after := Figures(sh.(vehicles := sh.vehicles + [v]));
      && after.totalCost == before.totalCost + v.vehicle.purchasePrice
      && after.revenue == before.revenue + Sum(Filter(v.parts, IsSold), SaleValue)
      && after.unsoldValue == before.unsoldValue + Sum(Filter(v.parts, IsUnsold), CostValue)
      && after.realized == before.realized + Sum(Filter(v.parts, IsSold), SaleValue) - v.vehicle.purchasePrice
      && after.vehicleCount == before.vehicleCount + 1
  {
    var vs := sh.vehicles;
    SumAppend(vs, [v], PurchaseOf);
    PartsWhereAppend(vs, [v], IsSold);
    PartsWhereAppend(vs, [v], IsUnsold);
    assert PartsWhere([v], IsSold) == Filter(v.parts, IsSold);
    assert PartsWhere([v], IsUnsold) == Filter(v.parts, IsUnsold);
    SumAppend(PartsWhere(vs, IsSold), Filter(v.parts, IsSold), SaleValue);
    SumAppend(PartsWhere(vs, IsUnsold), Filter(v.parts, IsUnsold), CostValue);
  }

  /** With non-negative quantities and prices, neither the revenue nor the unsold value is negative. */
  lemma FiguresNonNegative(sh: Shipment)
    requires forall i, j :: 0 <= i < |sh.vehicles| && 0 <= j < |sh.vehicles[i].parts| ==>
      var p := sh.vehicles[i].parts[j];
      p.quantity >= 0 && p.costPrice >= 0 && OrZero(p.sellingPrice) >= 0
    ensures Figures(sh).revenue >= 0
    ensures Figures(sh).unsoldValue >= 0
  {
    PartsNonNegative(sh.vehicles, IsSold);
    PartsNonNegative(sh.vehicles, IsUnsold);
    var sold := PartsWhere(sh.vehicles, IsSold);
    var unsold := PartsWhere(sh.vehicles, IsUnsold);
    SumNonNegative(sold, SaleValue);
    SumNonNegative(unsold, CostValue);
  }

  lemma {:induction false} PartsNonNegative(vs: seq<Loaded>, keep: Item -> bool)
    requires forall i, j :: 0 <= i < |vs| && 0 <= j < |vs[i].parts| ==>
      var p := vs[i].parts[j];
      p.quantity >= 0 && p.costPrice >= 0 && OrZero(p.sellingPrice) >= 0
    ensures forall k :: 0 <= k < |PartsWhere(vs, keep)| ==>
      var p := PartsWhere(vs, keep)[k];
      p.quantity >= 0 && p.costPrice >= 0 && OrZero(p.sellingPrice) >= 0
    decreases |vs|
  {
    if |vs| > 0 {
      PartsNonNegative(vs[1..], keep);
      var head := Filter(vs[0].parts, keep);
      forall k | 0 <= k < |head|
        ensures head[k].quantity >= 0 && head[k].costPrice >= 0 && OrZero(head[k].sellingPrice) >= 0
      {
        FilterMembers(vs[0].parts, keep, head[k]);
        var j :| 0 <= j < |vs[0].parts| && vs[0].parts[j] == head[k];
      }
      forall i, j | 0 <= i < |vs[1..]| && 0 <= j < |vs[1..][i].parts|
        ensures vs[1..][i].parts[j].quantity >= 0
      {
        assert vs[1..][i] == vs[i + 1];
      }
    }
  }
}
