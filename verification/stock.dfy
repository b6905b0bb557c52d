/**
 * Stock screens of the inventory (api/src/controllers/inventoryController.js): the valuation of the
 * in-stock parts with its per-category breakdown, the low-stock list, and the page arithmetic of the
 * paginated listings.
 */
module Stock {
  import opened Wrappers
  import opened Folds
  import opened Records
  import Containers
  import Reports

  // ---------------------------------------------------------------------------------------------
  // Valuation

  /**
   * A part's value at its selling price, or at cost price when it has none. The price columns are
   * fixed-point decimals, which the database driver hands over as strings: a stored price of zero is
   * the non-empty string "0.00", so only a NULL selling price falls back to the cost price.
   */
  function SellOf(p: Item): int { p.sellingPrice.GetOr(p.costPrice) * p.quantity }

  function UnitsOf(p: Item): int { p.quantity }
  function CategoryOf(p: Item): Category { p.category }

  datatype CategoryValue = CategoryValue(costValue: int, sellValue: int, items: int)

  datatype Valuation = Valuation(
    totalCostValue: int,
    totalSellValue: int,
    totalItems: int,
    byCategory: map<Category, CategoryValue>)

  function CostColumn(c: CategoryValue): int { c.costValue }
  function SellColumn(c: CategoryValue): int { c.sellValue }
  function ItemsColumn(c: CategoryValue): int { c.items }

  /** The three per-category tallies joined into one entry per category. */
  function Join(cost: map<Category, int>, sell: map<Category, int>, items: map<Category, int>): (r: map<Category, CategoryValue>)
    requires cost.Keys == sell.Keys == items.Keys
    ensures r.Keys == cost.Keys
    ensures Column(r, CostColumn) == cost && Column(r, SellColumn) == sell && Column(r, ItemsColumn) == items
  {
    map k | k in cost :: CategoryValue(cost[k], sell[k], items[k])
  }

  /**
   * `GET /inventory/valuation`: the in-stock parts, at the location when one is given, valued at cost
   * and at selling price, with the same three figures per category. Every category with a valued part
   * has an entry, the entry holds that category's sums, the cost total is the dashboard's inventory
   * value, and each column of the breakdown adds up to
   * its total; with nothing in stock every figure is zero and the breakdown is empty.
   */
  function GetValuation(items: seq<Item>, loc: Option<Location>): (r: Valuation)
    ensures var kept := Filter(items, Reports.StockedAt(loc));
      && r.totalCostValue == Sum(kept, Containers.CostValue) == Reports.InventoryValue(items, loc)
      && r.totalSellValue == Sum(kept, SellOf)
      && r.totalItems == Sum(kept, UnitsOf)
      && r.byCategory.Keys == KeysOf(kept, CategoryOf)
      && (forall k :: k in r.byCategory ==>
            r.byCategory[k] == CategoryValue(SumAt(kept, CategoryOf, k, Containers.CostValue),
                                             SumAt(kept, CategoryOf, k, SellOf),
                                             SumAt(kept, CategoryOf, k, UnitsOf)))
    ensures Spread(Column(r.byCategory, CostColumn), AllCategories) == r.totalCostValue
    ensures Spread(Column(r.byCategory, SellColumn), AllCategories) == r.totalSellValue
    ensures Spread(Column(r.byCategory, ItemsColumn), AllCategories) == r.totalItems
    ensures |Filter(items, Reports.StockedAt(loc))| == 0 ==> r == Valuation(0, 0, 0, map[])
  {
    var kept := Filter(items, Reports.StockedAt(loc));
    var cost := Tally(kept, CategoryOf, Containers.CostValue);
    var sell := Tally(kept, CategoryOf, SellOf);
    var units := Tally(kept, CategoryOf, UnitsOf);
    TallyMeaning(kept, CategoryOf, Containers.CostValue);
    TallyMeaning(kept, CategoryOf, SellOf);
    TallyMeaning(kept, CategoryOf, UnitsOf);
    CategoriesListed();
    TallyTotal(kept, CategoryOf, Containers.CostValue, AllCategories);
    TallyTotal(kept, CategoryOf, SellOf, AllCategories);
    TallyTotal(kept, CategoryOf, UnitsOf, AllCategories);
    Valuation(Sum(kept, Containers.CostValue), Sum(kept, SellOf), Sum(kept, UnitsOf), Join(cost, sell, units))
  }

  /** A part with a selling price of zero is valued at zero, not at its cost price. */
  lemma ZeroPriceIsNotAbsent(p: Item)
    requires p.sellingPrice == Some(0)
    ensures SellOf(p) == 0
  {
  }

  /** Adding one part moves each total by that part's figures alone, and only when it is valued. */
  lemma ValuationGrows(items: seq<Item>, p: Item, loc: Option<Location>)
    ensures var before := GetValuation(items, loc);
      var after := GetValuation(items + [p], loc);
      var counted := p.status == InStock && AtLocation(loc, p.location);
      && after.totalCostValue == before.totalCostValue + (if counted then Containers.CostValue(p) else 0)
      && after.totalSellValue == before.totalSellValue + (if counted then SellOf(p) else 0)
      && after.totalItems == before.totalItems + (if counted then p.quantity else 0)
  {
    var keep := Reports.StockedAt(loc);
    FilterAppend(items, [p], keep);
    SumAppend(Filter(items, keep), Filter([p], keep), Containers.CostValue);
    SumAppend(Filter(items, keep), Filter([p], keep), SellOf);
    SumAppend(Filter(items, keep), Filter([p], keep), UnitsOf);
  }

  // ---------------------------------------------------------------------------------------------
  // Low stock

  /** In stock with at most two units left. */
  predicate Low(p: Item) { p.status == InStock && p.quantity <= 2 }

  /** Ordered by quantity, smallest first. */
  predicate Ascending(s: seq<Item>)
  {
    forall i, j :: 0 <= i < j < |s| ==> s[i].quantity <= s[j].quantity
  }

  /** Insertion of one part into a list ordered by quantity, after the parts with the same quantity. */
  function Insert(p: Item, s: seq<Item>): seq<Item>
    decreases |s|
  {
    if |s| == 0 then [p]
    else if p.quantity < s[0].quantity then [p] + s
    else [s[0]] + Insert(p, s[1..])
  }

  /** Insertion adds exactly the inserted part: the result is the list and the part, as a multiset. */
  lemma {:induction false} InsertPermutes(p: Item, s: seq<Item>)
    ensures multiset(Insert(p, s)) == multiset(s) + multiset{p}
    decreases |s|
  {
    if |s| > 0 && p.quantity >= s[0].quantity {
      InsertPermutes(p, s[1..]);
      assert s == [s[0]] + s[1..];
    }
  }

  /** Insertion into a list ordered by quantity keeps it ordered. */
  lemma {:induction false} InsertSorted(p: Item, s: seq<Item>)
    requires Ascending(s)
    ensures Ascending(Insert(p, s))
    decreases |s|
  {
    if |s| > 0 && p.quantity >= s[0].quantity {
      var rest := Insert(p, s[1..]);
      InsertSorted(p, s[1..]);
      InsertPermutes(p, s[1..]);
      forall i | 0 <= i < |rest| ensures s[0].quantity <= rest[i].quantity {
        assert rest[i] in multiset(rest);
        assert rest[i] == p || rest[i] in multiset(s[1..]);
        if rest[i] != p {
          var j :| 0 <= j < |s[1..]| && s[1..][j] == rest[i];
          assert s[j + 1] == rest[i];
        }
      }
      assert Insert(p, s) == [s[0]] + rest;
    }
  }

  /** The parts ordered by quantity, ascending (an insertion sort; parts of equal quantity come in no promised order, as the query leaves them). */
  function SortByQuantity(s: seq<Item>): (r: seq<Item>)
    ensures Ascending(r)
    ensures multiset(r) == multiset(s)
    decreases |s|
  {
    if |s| == 0 then []
    else
      assert s == [s[0]] + s[1..];
      InsertSorted(s[0], SortByQuantity(s[1..]));
      InsertPermutes(s[0], SortByQuantity(s[1..]));
      Insert(s[0], SortByQuantity(s[1..]))
  }

  /**
   * `GET /inventory/low-stock`: exactly the in-stock parts with at most two units, each as often as
   * it occurs among the rows, ordered by quantity ascending.
   */
  function LowStock(items: seq<Item>): (r: seq<Item>)
    ensures Ascending(r)
    ensures multiset(r) == multiset(Filter(items, Low))
    ensures forall p :: p in r <==> p in items && Low(p)
  {
    var r := SortByQuantity(Filter(items, Low));
    forall p ensures p in r <==> p in items && Low(p) {
      FilterMembers(items, Low, p);
      assert p in r <==> p in multiset(r);
    }
    r
  }

  /** Every listed part has at most two units, so the list's units are at most twice its length. */
  lemma LowStockBounded(items: seq<Item>)
    ensures forall i :: 0 <= i < |LowStock(items)| ==> LowStock(items)[i].quantity <= 2
    ensures |LowStock(items)| <= |items|
  {
    var r := LowStock(items);
    forall i | 0 <= i < |r| ensures r[i].quantity <= 2 {
      assert r[i] in r;
    }
    assert |r| == |multiset(r)|;
  }

  // ---------------------------------------------------------------------------------------------
  // Pagination

  /** The rows skipped before a page: `(page - 1) * limit`. */
  function Offset(page: int, limit: int): int { (page - 1) * limit }

  /**
   * The number of pages, `Math.ceil(count / limit)`: the least page count whose pages hold every
   * row. With a limit of zero the quotient is not a finite number and the response carries no page
   * count; a negative limit is refused by the database. Both are `None` here.
   */
  function PageCount(count: nat, limit: int): (r: Option<nat>)
    ensures r.Some? <==> limit > 0
    ensures r.Some? ==> count <= r.value * limit < count + limit
  {
    if limit <= 0 then None
    else
      var q := (count + limit - 1) / limit;
      var m := (count + limit - 1) % limit;
      assert q * limit + m == count + limit - 1;
      Some(q)
  }

  /** Every row lies on a page between the first and the last: the pages cover the rows. */
  lemma RowHasPage(count: nat, limit: int, i: nat)
    requires limit > 0
    requires i < count
    ensures var page := i / limit + 1;
      && 1 <= page <= PageCount(count, limit).value
      && Offset(page, limit) <= i < Offset(page, limit) + limit
  {
    var page := i / limit + 1;
    var n := PageCount(count, limit).value;
    assert (page - 1) * limit + i % limit == i;
    FewerRowsFewerPages(page - 1, n, limit);
  }

  /** Whole pages ordered by the rows they hold are ordered by their number. */
  lemma FewerRowsFewerPages(a: int, b: int, c: int)
    requires c > 0
    requires a * c < b * c
    ensures a < b
  {
    assert (b - a) * c == b * c - a * c;
  }
}
