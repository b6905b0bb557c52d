/**
 * The order workflow of api/src/controllers/orderController.js: creating an order (customer check,
 * per-line stock check, pricing, stock reservation, totals, order and order-item rows), recording a
 * payment (paid amount, payment status, ledger entry), the pending-only delete, and the monthly
 * sales summary.
 */
module Orders {
  import opened Wrappers
  import opened Records
  import opened Folds
  import opened Tables

  // ---------------------------------------------------------------------------------------------
  // Requests

  /** One cart line of the request body. */
  datatype Line = Line(inventoryId: Id, quantity: int, unitPrice: Option<int>, discount: Option<int>)

  /** The body of `POST /orders`. Absent amounts default to 0. */
  datatype OrderRequest = OrderRequest(
    customerId: Id,
    lines: seq<Line>,
    location: Location,
    paymentMethod: Option<PaymentMethod>,
    discount: Option<int>,
    tax: Option<int>,
    shippingCost: Option<int>)

  /** A priced line, before its order-item row is written; the price is absent when neither the
      request nor the part supplies one. */
  datatype Draft = Draft(inventoryId: Id, quantity: int, unitPrice: Option<int>, discount: int, totalPrice: int)

  /** What the line loop carries: the inventory as reserved so far, the priced lines, the subtotal. */
  datatype Cart = Cart(inventory: map<Id, Item>, drafts: seq<Draft>, subtotal: int)

  /** The answer of a payment: the updated order and `totalAmount - paidAmount`. */
  datatype Payment = Payment(order: Order, newBalance: int)

  // ---------------------------------------------------------------------------------------------
  // Pricing and reservation of one line

  /** The line references a part that exists and has at least the requested quantity. */
  predicate LineOk(inv: map<Id, Item>, l: Line)
  {
    l.inventoryId in inv && l.quantity <= inv[l.inventoryId].quantity
  }

  /** Why a line that is not `LineOk` is rejected. */
  function LineFailure(inv: map<Id, Item>, l: Line): ErrorKind
  {
    if l.inventoryId !in inv then NotFound else InsufficientStock
  }

  /** `item.unitPrice || inventory.sellingPrice`. */
  function PriceOf(it: Item, l: Line): Option<int>
  {
    OrElse(l.unitPrice, it.sellingPrice)
  }

  /** `unitPrice * quantity - (item.discount || 0)`, where a NULL price multiplies as 0. */
  function LineTotal(price: Option<int>, l: Line): int
  {
    OrZero(price) * l.quantity - OrZero(l.discount)
  }

  /** The priced line the loop records for `l`. */
  function DraftOf(it: Item, l: Line): Draft
  {
    var price := PriceOf(it, l);
    Draft(l.inventoryId, l.quantity, price, OrZero(l.discount), LineTotal(price, l))
  }

  /** The line's total, read against the inventory as it was when the request arrived. */
  function LineAmount(inv: map<Id, Item>): Line -> int
  {
    (l: Line) => if l.inventoryId in inv then LineTotal(PriceOf(inv[l.inventoryId], l), l) else 0
  }

  /** Reserving `q` units of a part: `quantity - q`, and `sold` once the result is exactly 0. */
  function Take(it: Item, q: int): (r: Item)
    ensures r.quantity == it.quantity - q
    ensures r.status == (if it.quantity == q then Sold else it.status)
    ensures r.(quantity := it.quantity, status := it.status) == it
  {
    var left := it.quantity - q;
    it.(quantity := left, status := if left == 0 then Sold else it.status)
  }

  /** No two lines name the same part. */
  predicate DistinctLines(lines: seq<Line>)
  {
    forall i, j :: 0 <= i < j < |lines| ==> lines[i].inventoryId != lines[j].inventoryId
  }

  /** The part ids the lines name. */
  function LineIds(lines: seq<Line>): set<Id>
  {
    set i | 0 <= i < |lines| :: lines[i].inventoryId
  }

  /**
   * The line loop. Each part is looked up in `inv0`, the inventory as committed before the request
   * (the lookup runs outside the database transaction); its reservation is written into the cart.
   * The first missing part or short line aborts the loop.
   */
  function PriceLines(inv0: map<Id, Item>, lines: seq<Line>, cart: Cart): Checked<Cart>
    decreases |lines|
  {
    if |lines| == 0 then Pass(cart)
    else
      var l := lines[0];
      if l.inventoryId !in inv0 then Fail(NotFound)
      else
        var it := inv0[l.inventoryId];
        if it.quantity < l.quantity then Fail(InsufficientStock)
        else
          var d := DraftOf(it, l);
          PriceLines(inv0, lines[1..],
                     Cart(cart.inventory[l.inventoryId := Take(it, l.quantity)],
                          cart.drafts + [d],
                          cart.subtotal + d.totalPrice))
  }

  // ---------------------------------------------------------------------------------------------
  // Creating an order

  /** The new order row: `pending`, `unpaid`, nothing paid, currency defaulting to AED. */
  function NewOrder(req: OrderRequest, subtotal: int, today: int): Order
  {
    var discount := OrZero(req.discount);
    var tax := OrZero(req.tax);
    var shipping := OrZero(req.shippingCost);
    Order(req.customerId, today, Pending, Unpaid, req.paymentMethod, subtotal, discount, tax, shipping,
          subtotal - discount + tax + shipping, 0, AED, req.location)
  }

  /** Every priced line has a price (the order-item price column is NOT NULL). */
  predicate AllPriced(drafts: seq<Draft>)
  {
    forall i :: 0 <= i < |drafts| ==> drafts[i].unitPrice.Some?
  }

  /** Writes one order-item row per priced line, under the given fresh ids. */
  function AddItems(rows: map<Id, OrderItem>, ids: seq<Id>, orderId: Id, drafts: seq<Draft>): map<Id, OrderItem>
    requires |ids| == |drafts|
    requires AllPriced(drafts)
    decreases |ids|
  {
    if |ids| == 0 then rows
    else
      var d := drafts[0];
      AddItems(rows[ids[0] := OrderItem(orderId, d.inventoryId, d.quantity, d.unitPrice.value, d.discount, d.totalPrice)],
               ids[1..], orderId, drafts[1..])
  }

  /** The ids the database hands out for the new rows are unused and distinct. */
  predicate FreshIds(s: Store, orderId: Id, itemIds: seq<Id>, n: nat)
  {
    && orderId !in s.orders
    && |itemIds| == n
    && NoDup(itemIds)
    && forall i :: 0 <= i < |itemIds| ==> itemIds[i] !in s.orderItems
  }

  /** Every line names an existing part with enough stock. */
  predicate AllLinesOk(inv: map<Id, Item>, lines: seq<Line>)
  {
    forall i :: 0 <= i < |lines| ==> LineOk(inv, lines[i])
  }

  /** Every line gets a price, from the request or from the part. */
  predicate AllLinesPriced(inv: map<Id, Item>, lines: seq<Line>)
    requires AllLinesOk(inv, lines)
  {
    forall i :: 0 <= i < |lines| ==> PriceOf(inv[lines[i].inventoryId], lines[i]).Some?
  }

  /**
   * `POST /orders`. Succeeds exactly when the customer exists, every line is `LineOk`, the payment
   * method is one the order table accepts and every line has a price; on success only the
   * inventory, orders and order-item tables change.
   */
  function Create(s: Store, req: OrderRequest, orderId: Id, itemIds: seq<Id>, today: int): (r: Outcome<Order>)
    requires DistinctLines(req.lines)
    requires FreshIds(s, orderId, itemIds, |req.lines|)
    ensures req.customerId !in s.customers ==> r == Err(NotFound)
    ensures r.Ok? <==>
      && req.customerId in s.customers
      && AllLinesOk(s.inventory, req.lines)
      && OrderAccepts(req.paymentMethod)
      && AllLinesPriced(s.inventory, req.lines)
    ensures r.Ok? ==>
      && SameReferenceData(s, r.store)
      && r.store.transactions == s.transactions
      && r.store.orders == s.orders[orderId := r.value]
  {
    if req.customerId !in s.customers then Err(NotFound)
    else
      var priced := PriceLines(s.inventory, req.lines, Cart(s.inventory, [], 0));
      PriceLinesPass(s.inventory, req.lines, Cart(s.inventory, [], 0));
      if priced.Fail? then Err(priced.error)
      else
        var cart := priced.value;
        PriceLinesDrafts(s.inventory, req.lines, Cart(s.inventory, [], 0));
        if !OrderAccepts(req.paymentMethod) then Err(Rejected)
        else if !AllPriced(cart.drafts) then Err(Rejected)
        else
          var order := NewOrder(req, cart.subtotal, today);
          Ok(s.(inventory := cart.inventory,
                orders := s.orders[orderId := order],
                orderItems := AddItems(s.orderItems, itemIds, orderId, cart.drafts)),
             order)
  }

  // ---------------------------------------------------------------------------------------------
  // What the line loop computes

  /** The loop passes exactly when every line is `LineOk`; then its priced lines all carry a price
      exactly when the cart's did and every request line finds a price. */
  lemma {:induction false} PriceLinesPass(inv0: map<Id, Item>, lines: seq<Line>, cart: Cart)
    ensures PriceLines(inv0, lines, cart).Pass? <==> AllLinesOk(inv0, lines)
    ensures PriceLines(inv0, lines, cart).Pass? ==>
      (AllPriced(PriceLines(inv0, lines, cart).value.drafts) <==> AllPriced(cart.drafts) && AllLinesPriced(inv0, lines))
    decreases |lines|
  {
    if |lines| > 0 {
      var l := lines[0];
      var rest := lines[1..];
      if LineOk(inv0, l) {
        var it := inv0[l.inventoryId];
        var d := DraftOf(it, l);
        var cart' := Cart(cart.inventory[l.inventoryId := Take(it, l.quantity)], cart.drafts + [d], cart.subtotal + d.totalPrice);
        PriceLinesPass(inv0, rest, cart');
        assert AllLinesOk(inv0, lines) <==> AllLinesOk(inv0, rest) by {
          if AllLinesOk(inv0, rest) {
            forall i | 0 <= i < |lines| ensures LineOk(inv0, lines[i]) {
              if i > 0 { assert lines[i] == rest[i - 1]; }
            }
          }
        }
        if AllLinesOk(inv0, lines) {
          assert AllLinesPriced(inv0, lines) <==> d.unitPrice.Some? && AllLinesPriced(inv0, rest) by {
            if d.unitPrice.Some? && AllLinesPriced(inv0, rest) {
              forall i | 0 <= i < |lines| ensures PriceOf(inv0[lines[i].inventoryId], lines[i]).Some? {
                if i > 0 { assert lines[i] == rest[i - 1]; }
              }
            }
          }
          assert AllPriced(cart'.drafts) <==> AllPriced(cart.drafts) && d.unitPrice.Some? by {
            if AllPriced(cart.drafts) && d.unitPrice.Some? {
              forall i | 0 <= i < |cart'.drafts| ensures cart'.drafts[i].unitPrice.Some? {
                if i < |cart.drafts| { assert cart'.drafts[i] == cart.drafts[i]; }
              }
            }
            if AllPriced(cart'.drafts) {
              assert cart'.drafts[|cart.drafts|] == d;
              forall i | 0 <= i < |cart.drafts| ensures cart.drafts[i].unitPrice.Some? {
                assert cart'.drafts[i] == cart.drafts[i];
              }
            }
          }
        }
      } else {
        assert !AllLinesOk(inv0, lines) by { assert !LineOk(inv0, lines[0]); }
      }
    }
  }

  /** When every line is `LineOk`, the loop's cart holds the earlier priced lines followed by one
      priced line per request line, in order, and the subtotal grows by the sum of the line totals. */
  lemma {:induction false} PriceLinesDrafts(inv0: map<Id, Item>, lines: seq<Line>, cart: Cart)
    requires AllLinesOk(inv0, lines)
    ensures PriceLines(inv0, lines, cart).Pass?
    ensures PriceLines(inv0, lines, cart).Pass? && var c := PriceLines(inv0, lines, cart).value;
      && |c.drafts| == |cart.drafts| + |lines|
      && c.drafts[..|cart.drafts|] == cart.drafts
      && (forall i :: 0 <= i < |lines| ==> c.drafts[|cart.drafts| + i] == DraftOf(inv0[lines[i].inventoryId], lines[i]))
      && c.subtotal == cart.subtotal + Sum(lines, LineAmount(inv0))
    decreases |lines|
  {
    PriceLinesPass(inv0, lines, cart);
    if |lines| > 0 {
      var l := lines[0];
      var rest := lines[1..];
      assert LineOk(inv0, l);
      assert AllLinesOk(inv0, rest) by {
        forall i | 0 <= i < |rest| ensures LineOk(inv0, rest[i]) { assert rest[i] == lines[i + 1]; }
      }
      var it := inv0[l.inventoryId];
      var d := DraftOf(it, l);
      var cart' := Cart(cart.inventory[l.inventoryId := Take(it, l.quantity)], cart.drafts + [d], cart.subtotal + d.totalPrice);
      PriceLinesDrafts(inv0, rest, cart');
      var c := PriceLines(inv0, lines, cart).value;
      assert c == PriceLines(inv0, rest, cart').value;
      assert c.drafts[..|cart'.drafts|] == cart'.drafts;
      forall i | 0 <= i < |lines|
        ensures c.drafts[|cart.drafts| + i] == DraftOf(inv0[lines[i].inventoryId], lines[i])
      {
        if i == 0 {
          assert c.drafts[|cart.drafts|] == c.drafts[..|cart'.drafts|][|cart.drafts|];
        } else {
          assert lines[i] == rest[i - 1];
          assert |cart.drafts| + i == |cart'.drafts| + (i - 1);
        }
      }
      assert c.drafts[..|cart.drafts|] == c.drafts[..|cart'.drafts|][..|cart.drafts|];
    }
  }

  /** Splitting off the first line: the rest is still distinct and passing, and its part ids are
      the whole list's ids without the first one, which they do not contain. */
  lemma LinesCons(inv0: map<Id, Item>, lines: seq<Line>)
    requires |lines| > 0
    requires DistinctLines(lines)
    requires AllLinesOk(inv0, lines)
    ensures DistinctLines(lines[1..])
    ensures AllLinesOk(inv0, lines[1..])
    ensures LineIds(lines) == {lines[0].inventoryId} + LineIds(lines[1..])
    ensures lines[0].inventoryId !in LineIds(lines[1..])
  {
    var rest := lines[1..];
    forall i | 0 <= i < |rest| ensures LineOk(inv0, rest[i]) { assert rest[i] == lines[i + 1]; }
    forall id | id in LineIds(lines) ensures id in {lines[0].inventoryId} + LineIds(rest) {
      var i :| 0 <= i < |lines| && lines[i].inventoryId == id;
      if i > 0 { assert rest[i - 1].inventoryId == id; }
    }
    forall id | id in LineIds(rest) ensures id in LineIds(lines) {
      var i :| 0 <= i < |rest| && rest[i].inventoryId == id;
      assert lines[i + 1].inventoryId == id;
    }
    forall i | 0 <= i < |rest| ensures rest[i].inventoryId != lines[0].inventoryId {
      assert lines[i + 1] == rest[i];
    }
  }

  /** When the lines name distinct parts and are all `LineOk`, the loop's inventory reserves every
      named part against its committed row and leaves every other row as the cart had it. */
  lemma {:induction false} PriceLinesStock(inv0: map<Id, Item>, lines: seq<Line>, cart: Cart)
    requires DistinctLines(lines)
    requires AllLinesOk(inv0, lines)
    ensures PriceLines(inv0, lines, cart).Pass?
    ensures PriceLines(inv0, lines, cart).Pass? && var c := PriceLines(inv0, lines, cart).value;
      && c.inventory.Keys == cart.inventory.Keys + LineIds(lines)
      && (forall i :: 0 <= i < |lines| ==> c.inventory[lines[i].inventoryId] == Take(inv0[lines[i].inventoryId], lines[i].quantity))
      && (forall id :: id in cart.inventory && id !in LineIds(lines) ==> c.inventory[id] == cart.inventory[id])
    decreases |lines|
  {
    PriceLinesPass(inv0, lines, cart);
    if |lines| > 0 {
      var l := lines[0];
      var rest := lines[1..];
      assert LineOk(inv0, l);
      LinesCons(inv0, lines);
      var it := inv0[l.inventoryId];
      var d := DraftOf(it, l);
      var cart' := Cart(cart.inventory[l.inventoryId := Take(it, l.quantity)], cart.drafts + [d], cart.subtotal + d.totalPrice);
      PriceLinesStock(inv0, rest, cart');
      var c := PriceLines(inv0, lines, cart).value;
      assert c == PriceLines(inv0, rest, cart').value;
      forall i | 0 <= i < |lines|
        ensures c.inventory[lines[i].inventoryId] == Take(inv0[lines[i].inventoryId], lines[i].quantity)
      {
        if i > 0 { assert lines[i] == rest[i - 1]; }
      }
    }
  }

  /** The first failing line decides the error: `NotFound` for a missing part, `InsufficientStock`
      for a short one; later lines are not looked at. */
  lemma {:induction false} PriceLinesFirstFailure(inv0: map<Id, Item>, lines: seq<Line>, cart: Cart, k: nat)
    requires k < |lines|
    requires forall j :: 0 <= j < k ==> LineOk(inv0, lines[j])
    requires !LineOk(inv0, lines[k])
    ensures PriceLines(inv0, lines, cart) == Fail(LineFailure(inv0, lines[k]))
    decreases |lines|
  {
    if k > 0 {
      var l := lines[0];
      assert LineOk(inv0, l);
      var it := inv0[l.inventoryId];
      var d := DraftOf(it, l);
      var cart' := Cart(cart.inventory[l.inventoryId := Take(it, l.quantity)], cart.drafts + [d], cart.subtotal + d.totalPrice);
      forall j | 0 <= j < k - 1 ensures LineOk(inv0, lines[1..][j]) {
        assert lines[1..][j] == lines[j + 1];
      }
      PriceLinesFirstFailure(inv0, lines[1..], cart', k - 1);
    }
  }

  // ---------------------------------------------------------------------------------------------
  // Properties of `Create`

  /** With the customer present, the first line that names a missing part or asks for more than is in
      stock decides the error, whatever follows it; nothing is committed. */
  lemma CreateRejectsFirstBadLine(s: Store, req: OrderRequest, orderId: Id, itemIds: seq<Id>, today: int, k: nat)
    requires DistinctLines(req.lines)
    requires FreshIds(s, orderId, itemIds, |req.lines|)
    requires req.customerId in s.customers
    requires k < |req.lines|
    requires forall j :: 0 <= j < k ==> LineOk(s.inventory, req.lines[j])
    requires !LineOk(s.inventory, req.lines[k])
    ensures Create(s, req, orderId, itemIds, today)
         == Err(if req.lines[k].inventoryId !in s.inventory then NotFound else InsufficientStock)
    ensures After(s, Create(s, req, orderId, itemIds, today)) == s
  {
    PriceLinesFirstFailure(s.inventory, req.lines, Cart(s.inventory, [], 0), k);
  }

  /** Reservation: every named part loses exactly the requested quantity and turns `sold` exactly when
      none is left (its status is otherwise kept); every other part is untouched. */
  lemma CreateReserves(s: Store, req: OrderRequest, orderId: Id, itemIds: seq<Id>, today: int)
    requires DistinctLines(req.lines)
    requires FreshIds(s, orderId, itemIds, |req.lines|)
    requires Create(s, req, orderId, itemIds, today).Ok?
    ensures var t := Create(s, req, orderId, itemIds, today).store;
      && t.inventory.Keys == s.inventory.Keys
      && (forall i :: 0 <= i < |req.lines| ==>
            var id := req.lines[i].inventoryId;
            && t.inventory[id].quantity == s.inventory[id].quantity - req.lines[i].quantity
            && t.inventory[id].status == (if t.inventory[id].quantity == 0 then Sold else s.inventory[id].status)
            && t.inventory[id].(quantity := s.inventory[id].quantity, status := s.inventory[id].status) == s.inventory[id])
      && (forall id :: id in s.inventory && id !in LineIds(req.lines) ==> t.inventory[id] == s.inventory[id])
  {
    PriceLinesStock(s.inventory, req.lines, Cart(s.inventory, [], 0));
    forall id | id in LineIds(req.lines) ensures id in s.inventory {
      var i :| 0 <= i < |req.lines| && req.lines[i].inventoryId == id;
      assert LineOk(s.inventory, req.lines[i]);
    }
  }

  /** Stock never goes negative through an order: a reservation is refused before it could. */
  lemma CreateKeepsStockNonNegative(s: Store, req: OrderRequest, orderId: Id, itemIds: seq<Id>, today: int)
    requires DistinctLines(req.lines)
    requires FreshIds(s, orderId, itemIds, |req.lines|)
    requires forall id :: id in s.inventory ==> s.inventory[id].quantity >= 0
    ensures var t := After(s, Create(s, req, orderId, itemIds, today));
      forall id :: id in t.inventory ==> t.inventory[id].quantity >= 0
  {
    var r := Create(s, req, orderId, itemIds, today);
    if r.Ok? {
      CreateReserves(s, req, orderId, itemIds, today);
      forall id | id in r.store.inventory ensures r.store.inventory[id].quantity >= 0 {
        if id in LineIds(req.lines) {
          var i :| 0 <= i < |req.lines| && req.lines[i].inventoryId == id;
          assert LineOk(s.inventory, req.lines[i]);
        }
      }
    }
  }

  /** The priced rows an order creates, read back from the store in line order. */
  function ItemRows(t: Store, ids: seq<Id>): seq<OrderItem>
    requires forall i :: 0 <= i < |ids| ==> ids[i] in t.orderItems
  {
    seq(|ids|, i requires 0 <= i < |ids| => t.orderItems[ids[i]])
  }

  function ItemTotal(row: OrderItem): int
  {
    row.totalPrice
  }

  /** `AddItems` writes row `i` under id `i` and keeps every older row. */
  lemma {:induction false} AddItemsRows(rows: map<Id, OrderItem>, ids: seq<Id>, orderId: Id, drafts: seq<Draft>)
    requires |ids| == |drafts|
    requires AllPriced(drafts)
    requires NoDup(ids)
    ensures var t := AddItems(rows, ids, orderId, drafts);
      && t.Keys == rows.Keys + (set x | x in ids)
      && (forall i :: 0 <= i < |ids| ==>
            t[ids[i]] == OrderItem(orderId, drafts[i].inventoryId, drafts[i].quantity,
                                   drafts[i].unitPrice.value, drafts[i].discount, drafts[i].totalPrice))
      && (forall id :: id in rows && id !in ids ==> t[id] == rows[id])
    decreases |ids|
  {
    if |ids| > 0 {
      var d := drafts[0];
      var rows' := rows[ids[0] := OrderItem(orderId, d.inventoryId, d.quantity, d.unitPrice.value, d.discount, d.totalPrice)];
      assert NoDup(ids[1..]);
      assert AllPriced(drafts[1..]) by {
        forall i | 0 <= i < |drafts[1..]| ensures drafts[1..][i].unitPrice.Some? {
          assert drafts[1..][i] == drafts[i + 1];
        }
      }
      AddItemsRows(rows', ids[1..], orderId, drafts[1..]);
      var t := AddItems(rows, ids, orderId, drafts);
      assert (set x | x in ids) == {ids[0]} + (set x | x in ids[1..]) by {
        forall id | id in ids ensures id in {ids[0]} + (set x | x in ids[1..]) {
          var i :| 0 <= i < |ids| && ids[i] == id;
          if i > 0 { assert ids[1..][i - 1] == id; }
        }
      }
      forall i | 0 <= i < |ids|
        ensures t[ids[i]] == OrderItem(orderId, drafts[i].inventoryId, drafts[i].quantity,
                                       drafts[i].unitPrice.value, drafts[i].discount, drafts[i].totalPrice)
      {
        if i == 0 {
          assert ids[0] !in ids[1..] by {
            forall j | 0 <= j < |ids[1..]| ensures ids[1..][j] != ids[0] { assert ids[1..][j] == ids[j + 1]; }
          }
        } else {
          assert ids[i] == ids[1..][i - 1] && drafts[i] == drafts[1..][i - 1];
        }
      }
    }
  }

  /**
   * The new order and its rows. Line `i` becomes order item `itemIds[i]`, priced at the request's
   * unit price when it is present and non-zero and at the part's selling price otherwise, with the
   * line discount defaulting to 0 and total `unitPrice * quantity - discount`. The subtotal is the sum
   * of the line totals and equals the sum of the new rows' totals; the order total is
   * `subtotal - discount + tax + shippingCost` (each defaulting to 0); the order starts `pending`,
   * `unpaid`, with nothing paid, and every older row is kept.
   */
  lemma CreateBuildsOrder(s: Store, req: OrderRequest, orderId: Id, itemIds: seq<Id>, today: int)
    requires DistinctLines(req.lines)
    requires FreshIds(s, orderId, itemIds, |req.lines|)
    requires Create(s, req, orderId, itemIds, today).Ok?
    ensures var r := Create(s, req, orderId, itemIds, today);
      var t := r.store;
      var o := r.value;
      && o.customerId == req.customerId
      && o.status == Pending && o.paymentStatus == Unpaid && o.paidAmount == 0
      && o.orderDate == today && o.location == req.location && o.paymentMethod == req.paymentMethod
      && o.subtotal == Sum(req.lines, LineAmount(s.inventory))
      && o.discount == OrZero(req.discount) && o.tax == OrZero(req.tax) && o.shippingCost == OrZero(req.shippingCost)
      && o.totalAmount == o.subtotal - o.discount + o.tax + o.shippingCost
      && t.orderItems.Keys == s.orderItems.Keys + (set x | x in itemIds)
      && (forall id :: id in s.orderItems ==> t.orderItems[id] == s.orderItems[id])
      && (forall i :: 0 <= i < |req.lines| ==>
            var l := req.lines[i];
            var row := t.orderItems[itemIds[i]];
            var selling := s.inventory[l.inventoryId].sellingPrice;
            && row.orderId == orderId
            && row.inventoryId == l.inventoryId
            && row.quantity == l.quantity
            && row.unitPrice == (if l.unitPrice.Some? && l.unitPrice.value != 0 then l.unitPrice.value else selling.value)
            && row.discount == OrZero(l.discount)
            && row.totalPrice == row.unitPrice * row.quantity - row.discount)
      && Sum(ItemRows(t, itemIds), ItemTotal) == o.subtotal
  {
    var cart0 := Cart(s.inventory, [], 0);
    PriceLinesDrafts(s.inventory, req.lines, cart0);
    var cart := PriceLines(s.inventory, req.lines, cart0).value;
    AddItemsRows(s.orderItems, itemIds, orderId, cart.drafts);
    var r := Create(s, req, orderId, itemIds, today);
    var t := r.store;
    forall id | id in s.orderItems ensures t.orderItems[id] == s.orderItems[id] {
      assert id !in itemIds by {
        forall i | 0 <= i < |itemIds| ensures itemIds[i] != id { }
      }
    }
    assert forall i :: 0 <= i < |req.lines| ==> cart.drafts[i] == cart.drafts[|cart0.drafts| + i];
    ItemRowsSum(t, itemIds, req.lines, s.inventory, cart.drafts);
  }

  /** The rows written for the drafts add up to the lines' totals. */
  lemma {:induction false} ItemRowsSum(t: Store, ids: seq<Id>, lines: seq<Line>, inv: map<Id, Item>, drafts: seq<Draft>)
    requires |ids| == |lines| == |drafts|
    requires forall i :: 0 <= i < |ids| ==> ids[i] in t.orderItems
    requires forall i :: 0 <= i < |ids| ==> t.orderItems[ids[i]].totalPrice == drafts[i].totalPrice
    requires forall i :: 0 <= i < |lines| ==> lines[i].inventoryId in inv
    requires forall i :: 0 <= i < |lines| ==> drafts[i] == DraftOf(inv[lines[i].inventoryId], lines[i])
    ensures Sum(ItemRows(t, ids), ItemTotal) == Sum(lines, LineAmount(inv))
    decreases |ids|
  {
    if |ids| > 0 {
      assert ItemRows(t, ids)[1..] == ItemRows(t, ids[1..]);
      ItemRowsSum(t, ids[1..], lines[1..], inv, drafts[1..]);
    }
  }

  // ---------------------------------------------------------------------------------------------
  // Payments

  /** The payment status a paid amount gives: `paid` at or above the total, else `partial` above
      zero, else `unpaid`. */
  function StatusForPaid(paid: int, total: int): PaymentStatus
  {
    if paid >= total then Paid else if paid > 0 then Partial else Unpaid
  }

  /** The three statuses as separate conditions; note that a total of zero or less makes any paid
      amount that reaches it `paid`, and a paid amount of zero or less that stays below the total is
      `unpaid`. */
  lemma StatusForPaidCases(paid: int, total: int)
    ensures StatusForPaid(paid, total) == Paid <==> paid >= total
    ensures StatusForPaid(paid, total) == Partial <==> 0 < paid < total
    ensures StatusForPaid(paid, total) == Unpaid <==> paid <= 0 && paid < total
    ensures StatusForPaid(paid, total) != Refunded
  {
  }

  /** The ledger entry a payment writes. */
  function PaymentEntry(o: Order, orderId: Id, amount: int, via: Option<PaymentMethod>, today: int): Transaction
  {
    Transaction(Income, SalesCat, amount, o.currency, today, via, None, o.location, Completed,
                None, Some(orderId), None)
  }

  /**
   * `POST /orders/:id/payment`. The amount is not validated. The order update and the ledger insert
   * share one database transaction: a payment method that either table does not accept aborts both.
   */
  function RecordPayment(s: Store, orderId: Id, amount: int, via: Option<PaymentMethod>, txnId: Id, today: int): (r: Outcome<Payment>)
    requires txnId !in s.transactions
    ensures orderId !in s.orders ==> r == Err(NotFound)
    ensures r.Ok? <==> orderId in s.orders && OrderAccepts(via) && LedgerAccepts(via)
    ensures r.Ok? ==>
      var o := s.orders[orderId];
      && r.store.orders == s.orders[orderId := r.value.order]
      && r.value.order.paidAmount == o.paidAmount + amount
      && r.value.newBalance == o.totalAmount - r.value.order.paidAmount
      && r.value.order == o.(paidAmount := r.value.order.paidAmount,
                            paymentStatus := r.value.order.paymentStatus,
                            paymentMethod := r.value.order.paymentMethod)
      && r.value.order.paymentMethod == (if via.Some? then via else o.paymentMethod)
  {
    if orderId !in s.orders then Err(NotFound)
    else
      var o := s.orders[orderId];
      var paid := o.paidAmount + amount;
      var o' := o.(paidAmount := paid,
                   paymentStatus := StatusForPaid(paid, o.totalAmount),
                   paymentMethod := if via.Some? then via else o.paymentMethod);
      if !OrderAccepts(via) || !LedgerAccepts(via) then Err(Rejected)
      else
        Ok(s.(orders := s.orders[orderId := o'],
              transactions := s.transactions[txnId := PaymentEntry(o, orderId, amount, via, today)]),
           Payment(o', o.totalAmount - paid))
  }

  /** A payment touches exactly the paid order and appends exactly one ledger entry: income, category
      sales, the paid amount, in the order's currency and location, linked to the order, with no
      account. */
  lemma PaymentEffects(s: Store, orderId: Id, amount: int, via: Option<PaymentMethod>, txnId: Id, today: int)
    requires txnId !in s.transactions
    requires RecordPayment(s, orderId, amount, via, txnId, today).Ok?
    ensures var r := RecordPayment(s, orderId, amount, via, txnId, today);
      var o := s.orders[orderId];
      var e := r.store.transactions[txnId];
      && r.store.transactions.Keys == s.transactions.Keys + {txnId}
      && (forall id :: id in s.transactions ==> r.store.transactions[id] == s.transactions[id])
      && e.kind == Income && e.category == SalesCat && e.amount == amount
      && e.currency == o.currency && e.location == o.location
      && e.orderId == Some(orderId) && e.account.None? && e.status == Completed && e.date == today
      && r.store.orders.Keys == s.orders.Keys
      && (forall id :: id in s.orders && id != orderId ==> r.store.orders[id] == s.orders[id])
      && SameReferenceData(s, r.store)
      && r.store.inventory == s.inventory && r.store.orderItems == s.orderItems
  {
  }

  /** The stored status is the three-way rule applied to the new paid amount and the order total. */
  lemma PaymentStatusRule(s: Store, orderId: Id, amount: int, via: Option<PaymentMethod>, txnId: Id, today: int)
    requires txnId !in s.transactions
    requires RecordPayment(s, orderId, amount, via, txnId, today).Ok?
    ensures var r := RecordPayment(s, orderId, amount, via, txnId, today);
      var o := r.value.order;
      && (o.paymentStatus == Paid <==> o.paidAmount >= o.totalAmount)
      && (o.paymentStatus == Partial <==> 0 < o.paidAmount < o.totalAmount)
      && (o.paymentStatus == Unpaid <==> o.paidAmount <= 0 && o.paidAmount < o.totalAmount)
      && (o.paymentStatus == Paid <==> r.value.newBalance <= 0)
  {
    var r := RecordPayment(s, orderId, amount, via, txnId, today);
    StatusForPaidCases(r.value.order.paidAmount, r.value.order.totalAmount);
  }

  /** Paying exactly the outstanding balance settles an order: it becomes `paid` with balance 0. */
  lemma PayingBalanceSettles(s: Store, orderId: Id, via: Option<PaymentMethod>, txnId: Id, today: int)
    requires txnId !in s.transactions
    requires orderId in s.orders
    requires OrderAccepts(via) && LedgerAccepts(via)
    ensures var o := s.orders[orderId];
      var r := RecordPayment(s, orderId, o.totalAmount - o.paidAmount, via, txnId, today);
      r.Ok? && r.value.order.paymentStatus == Paid && r.value.newBalance == 0
  {
  }

  /** Two payments add up: paying `a` then `b` leaves the same paid amount, status and balance as
      paying `a + b` at once. */
  lemma PaymentsCompose(s: Store, orderId: Id, a: int, b: int, via: Option<PaymentMethod>, id1: Id, id2: Id, id3: Id, today: int)
    requires id1 !in s.transactions && id3 !in s.transactions
    requires id2 !in s.transactions && id2 != id1
    requires RecordPayment(s, orderId, a, via, id1, today).Ok?
    ensures var r1 := RecordPayment(s, orderId, a, via, id1, today);
      var r2 := RecordPayment(r1.store, orderId, b, via, id2, today);
      var r3 := RecordPayment(s, orderId, a + b, via, id3, today);
      && r2.Ok? && r3.Ok?
      && r2.value.order == r3.value.order
      && r2.value.newBalance == r3.value.newBalance
  {
  }

  // ---------------------------------------------------------------------------------------------
  // Deleting an order

  /** The order-item rows that do not belong to `orderId`. */
  function ItemsNotOf(rows: map<Id, OrderItem>, orderId: Id): map<Id, OrderItem>
  {
    map id | id in rows && rows[id].orderId != orderId :: rows[id]
  }

  /** Some ledger entry points at `orderId`. The ledger's `orderId` column is a plain foreign key with
      no delete action, so such an entry makes the database refuse to delete the order. */
  predicate HasLedgerEntry(s: Store, orderId: Id)
  {
    exists id :: id in s.transactions && s.transactions[id].orderId == Some(orderId)
  }

  /**
   * `DELETE /orders/:id`: only a `pending` order may go. Its order-item rows go with it (the
   * association from orders to items cascades); reserved stock is not given back. A pending order
   * that a payment has already linked a ledger entry to cannot go: the database refuses the delete,
   * the handler's catch answers 500, and nothing is removed (`Rejected`).
   */
  function Delete(s: Store, orderId: Id): (r: Outcome<()>)
    ensures r.Ok? <==> orderId in s.orders && s.orders[orderId].status == Pending && !HasLedgerEntry(s, orderId)
    ensures orderId in s.orders && s.orders[orderId].status != Pending ==> r == Err(NotPending)
    ensures orderId in s.orders && s.orders[orderId].status == Pending && HasLedgerEntry(s, orderId) ==>
              r == Err(Rejected)
    ensures orderId !in s.orders ==> r == Err(NotFound)
  {
    if orderId !in s.orders then Err(NotFound)
    else if s.orders[orderId].status != Pending then Err(NotPending)
    else if HasLedgerEntry(s, orderId) then Err(Rejected)
    else Ok(s.(orders := s.orders - {orderId}, orderItems := ItemsNotOf(s.orderItems, orderId)), ())
  }

  /** A delete removes the one order and its items and nothing else: every other order, every other
      item, the inventory (no stock is restored) and the ledger stay as they were. No ledger entry is
      left pointing at the removed order. */
  lemma DeleteEffects(s: Store, orderId: Id)
    requires Delete(s, orderId).Ok?
    ensures var t := Delete(s, orderId).store;
      && t.orders.Keys == s.orders.Keys - {orderId}
      && (forall id :: id in t.orders ==> t.orders[id] == s.orders[id])
      && (forall id :: id in s.orderItems ==>
            (id in t.orderItems <==> s.orderItems[id].orderId != orderId))
      && (forall id :: id in t.orderItems ==> t.orderItems[id] == s.orderItems[id])
      && t.inventory == s.inventory
      && t.transactions == s.transactions
      && (forall id :: id in t.transactions ==> t.transactions[id].orderId != Some(orderId))
      && SameReferenceData(s, t)
  {
  }

  /** Once a payment has been recorded against an order, the order can no longer be deleted, whatever
      its status: the payment's ledger entry holds a reference to it. */
  lemma PaidOrderCannotBeDeleted(s: Store, orderId: Id, amount: int, via: Option<PaymentMethod>, txnId: Id, today: int)
    requires txnId !in s.transactions
    requires RecordPayment(s, orderId, amount, via, txnId, today).Ok?
    ensures Delete(RecordPayment(s, orderId, amount, via, txnId, today).store, orderId).Err?
  {
    var t := RecordPayment(s, orderId, amount, via, txnId, today).store;
    assert t.transactions[txnId].orderId == Some(orderId);
  }

  // ---------------------------------------------------------------------------------------------
  // Monthly sales

  datatype SalesSummary = SalesSummary(
    totalOrders: int,
    totalRevenue: int,
    paidAmount: int,
    pendingAmount: int,
    byStatus: map<OrderStatus, int>,
    byPaymentStatus: map<PaymentStatus, int>)

  function TotalOf(o: Order): int { o.totalAmount }
  function PaidOf(o: Order): int { o.paidAmount }
  function BalanceOf(o: Order): int { o.totalAmount - o.paidAmount }
  function StatusOf(o: Order): OrderStatus { o.status }
  function PaymentStatusOf(o: Order): PaymentStatus { o.paymentStatus }
  function OneOrder(o: Order): int { 1 }

  /** Orders in the window that are not cancelled, at the location when one is given. */
  function InMonth(w: Window, loc: Option<Location>): Order -> bool
  {
    (o: Order) => InWindow(w, o.orderDate) && o.status != Cancelled && AtLocation(loc, o.location)
  }

  /**
   * `GET /orders/monthly-sales`: the window stands for the month's first and last day. The month's
   * orders are counted; every status (and every payment status) that occurs among them has an entry
   * holding the number of those orders in it, and no other status has one.
   */
  function MonthlySales(orders: seq<Order>, w: Window, loc: Option<Location>): (r: SalesSummary)
    ensures r.totalOrders == |Filter(orders, InMonth(w, loc))| <= |orders|
    ensures r.totalRevenue == Sum(Filter(orders, InMonth(w, loc)), TotalOf)
    ensures r.paidAmount == Sum(Filter(orders, InMonth(w, loc)), PaidOf)
    ensures r.pendingAmount == Sum(Filter(orders, InMonth(w, loc)), BalanceOf)
    ensures r.byStatus.Keys == KeysOf(Filter(orders, InMonth(w, loc)), StatusOf)
    ensures forall k :: k in r.byStatus ==>
      r.byStatus[k] == SumAt(Filter(orders, InMonth(w, loc)), StatusOf, k, OneOrder)
    ensures r.byPaymentStatus.Keys == KeysOf(Filter(orders, InMonth(w, loc)), PaymentStatusOf)
    ensures forall k :: k in r.byPaymentStatus ==>
      r.byPaymentStatus[k] == SumAt(Filter(orders, InMonth(w, loc)), PaymentStatusOf, k, OneOrder)
  {
    var rows := Filter(orders, InMonth(w, loc));
    TallyMeaning(rows, StatusOf, OneOrder);
    TallyMeaning(rows, PaymentStatusOf, OneOrder);
    SalesSummary(
      |rows|,
      Sum(rows, TotalOf),
      Sum(rows, PaidOf),
      Sum(rows, BalanceOf),
      Tally(rows, StatusOf, OneOrder),
      Tally(rows, PaymentStatusOf, OneOrder))
  }

  /** The pending amount is revenue minus what was paid; the status counts each add up to the number
      of orders; cancelled orders never appear. */
  lemma MonthlySalesConsistent(orders: seq<Order>, w: Window, loc: Option<Location>)
    ensures var m := MonthlySales(orders, w, loc);
      && m.pendingAmount == m.totalRevenue - m.paidAmount
      && Spread(m.byStatus, AllOrderStatuses) == m.totalOrders
      && Spread(m.byPaymentStatus, AllPaymentStatuses) == m.totalOrders
      && Cancelled !in m.byStatus
  {
    var rows := Filter(orders, InMonth(w, loc));
    SumSub(rows, TotalOf, PaidOf, BalanceOf);
    SumOnes(rows, OneOrder);
    OrderStatusesListed();
    PaymentStatusesListed();
    TallyTotal(rows, StatusOf, OneOrder, AllOrderStatuses);
    TallyTotal(rows, PaymentStatusOf, OneOrder, AllPaymentStatuses);
    TallyMeaning(rows, StatusOf, OneOrder);
  }
}
