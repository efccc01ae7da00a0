/** Order assembly: attaching the rows of an order-items query to the order headers
    fetched separately, as `assignItemsToOrder` and the inline loop of the live-orders
    route do. */
module Assembly {
  import opened Basics

  /** A row of an order-items query: the ordered item and the order it belongs to. */
  datatype StoredItem = StoredItem(orderId: Id, itemId: Id, name: string, price: int)

  /** An item as it appears inside an assembled order: the list and history paths keep
      `itemId`, `name` and `price`; the live path keeps only `itemId` and `name`. */
  datatype ItemView = Priced(itemId: Id, name: string, price: int) | Unpriced(itemId: Id, name: string)

  /** Which projection a path uses. */
  datatype View = WithPrice | WithoutPrice

  /** The columns of an order header other than its id and items. */
  datatype Header = Header(customerId: Id, restaurantId: Id, status: int, time: string)

  /** An order header with the items attached to it so far. */
  datatype Order = Order(orderId: Id, header: Header, items: seq<ItemView>)

  /** The projection of an item row that gets attached to its order. */
  function Project(it: StoredItem, v: View): (r: ItemView)
    ensures r.itemId == it.itemId && r.name == it.name
    ensures r.Priced? <==> v == WithPrice
    ensures r.Priced? ==> r.price == it.price
  {
    match v
    case WithPrice => Priced(it.itemId, it.name, it.price)
    case WithoutPrice => Unpriced(it.itemId, it.name)
  }

  /** Every order gets an empty `items` sequence before assembly begins. */
  function ResetItems(orders: seq<Order>): (r: seq<Order>)
    ensures |r| == |orders|
    ensures forall k :: 0 <= k < |r| ==> r[k].items == [] && r[k].orderId == orders[k].orderId
                                         && r[k].header == orders[k].header
  {
    seq(|orders|, k requires 0 <= k < |orders| => orders[k].(items := []))
  }

  /** The inner loop: one item row is appended, projected, to every order whose id
      equals the item's `orderId`; every other order is left as it is. */
  function AddItem(it: StoredItem, orders: seq<Order>, v: View): (r: seq<Order>)
    ensures |r| == |orders|
    ensures forall k :: 0 <= k < |orders| ==>
              r[k] == (if orders[k].orderId == it.orderId
                       then orders[k].(items := orders[k].items + [Project(it, v)])
                       else orders[k])
  {
    if |orders| == 0 then []
    else
      var head := if orders[0].orderId == it.orderId
                  then orders[0].(items := orders[0].items + [Project(it, v)])
                  else orders[0];
      [head] + AddItem(it, orders[1..], v)
  }

  /** `assignItemsToOrder`: the outer loop over the item rows, in arrival order. The
      orders keep their number and their order, and nothing but their items changes. */
  function AssignItems(items: seq<StoredItem>, orders: seq<Order>, v: View): (r: seq<Order>)
    ensures |r| == |orders|
    ensures forall k :: 0 <= k < |r| ==> r[k].orderId == orders[k].orderId && r[k].header == orders[k].header
    decreases |items|
  {
    if |items| == 0 then orders
    else AssignItems(items[1..], AddItem(items[0], orders, v), v)
  }

  // ---------------------------------------------------------------------------
  // Reference definition: the rows of one order, in arrival order.

  /** The item rows whose `orderId` is `id`, in the order they arrived. */
  function RowsOf(items: seq<StoredItem>, id: Id): (r: seq<StoredItem>)
    ensures |r| <= |items|
    ensures forall i :: 0 <= i < |r| ==> r[i].orderId == id && r[i] in items
  {
    if |items| == 0 then []
    else (if items[0].orderId == id then [items[0]] else []) + RowsOf(items[1..], id)
  }

  /** The projections of a sequence of rows, element by element. */
  function ProjectAll(rows: seq<StoredItem>, v: View): (r: seq<ItemView>)
    ensures |r| == |rows|
    ensures forall i :: 0 <= i < |r| ==> r[i] == Project(rows[i], v)
  {
    seq(|rows|, i requires 0 <= i < |rows| => Project(rows[i], v))
  }

  /** What assembly should attach to the order with id `id`. */
  function ItemsFor(items: seq<StoredItem>, id: Id, v: View): seq<ItemView> {
    ProjectAll(RowsOf(items, id), v)
  }

  lemma {:induction false} RowsOfAppend(a: seq<StoredItem>, b: seq<StoredItem>, id: Id)
    ensures RowsOf(a + b, id) == RowsOf(a, id) + RowsOf(b, id)
    decreases |a|
  {
    if |a| == 0 {
      assert a + b == b;
    } else {
      assert (a + b)[1..] == a[1..] + b;
      RowsOfAppend(a[1..], b, id);
    }
  }

  lemma ProjectAllAppend(a: seq<StoredItem>, b: seq<StoredItem>, v: View)
    ensures ProjectAll(a + b, v) == ProjectAll(a, v) + ProjectAll(b, v)
  {
  }

  /** Associativity of concatenation, stated apart: inside the induction below the
      solver does not find it within its resource limit. */
  lemma AppendAssoc<T>(a: seq<T>, b: seq<T>, c: seq<T>)
    ensures (a + b) + c == a + (b + c)
  {
  }

  /** `ItemsFor` unfolded by one row. */
  lemma ItemsForCons(items: seq<StoredItem>, id: Id, v: View)
    requires |items| > 0
    ensures ItemsFor(items, id, v) ==
            (if items[0].orderId == id then [Project(items[0], v)] else []) + ItemsFor(items[1..], id, v)
  {
    var here := if items[0].orderId == id then [items[0]] else [];
    assert RowsOf(items, id) == here + RowsOf(items[1..], id);
    ProjectAllAppend(here, RowsOf(items[1..], id), v);
  }

  /** After assembly, each order's items are its previous items followed by the
      projections of exactly the rows carrying its id, in the order they arrived. */
  lemma {:induction false} AssignItemsContents(items: seq<StoredItem>, orders: seq<Order>, v: View)
    ensures forall k :: 0 <= k < |orders| ==>
              AssignItems(items, orders, v)[k].items == orders[k].items + ItemsFor(items, orders[k].orderId, v)
    decreases |items|
  {
    if |items| > 0 {
      var next := AddItem(items[0], orders, v);
      var r := AssignItems(items, orders, v);
      assert r == AssignItems(items[1..], next, v);
      AssignItemsContents(items[1..], next, v);
      forall k | 0 <= k < |orders|
        ensures r[k].items == orders[k].items + ItemsFor(items, orders[k].orderId, v)
      {
        var id := orders[k].orderId;
        var here := if items[0].orderId == id then [Project(items[0], v)] else [];
        ItemsForCons(items, id, v);
        assert next[k].orderId == id && next[k].items == orders[k].items + here;
        assert r[k].items == next[k].items + ItemsFor(items[1..], id, v);
        AppendAssoc(orders[k].items, here, ItemsFor(items[1..], id, v));
      }
    }
  }

  /** Assembly in closed form: the result is the orders with their items extended as
      `ItemsFor` prescribes. */
  lemma AssignItemsCharacterized(items: seq<StoredItem>, orders: seq<Order>, v: View)
    ensures AssignItems(items, orders, v) ==
            seq(|orders|, k requires 0 <= k < |orders| =>
                  orders[k].(items := orders[k].items + ItemsFor(items, orders[k].orderId, v)))
  {
    AssignItemsContents(items, orders, v);
  }

  /** Assembly depends on the arrival order of the rows only through the order of the
      rows within each order: two fetches that agree order by order assemble alike. */
  lemma AssignItemsArrivalIndependent(items1: seq<StoredItem>, items2: seq<StoredItem>, orders: seq<Order>, v: View)
    requires forall id :: RowsOf(items1, id) == RowsOf(items2, id)
    ensures AssignItems(items1, orders, v) == AssignItems(items2, orders, v)
  {
    AssignItemsCharacterized(items1, orders, v);
    AssignItemsCharacterized(items2, orders, v);
  }

  /** A row whose `orderId` matches no order is added nowhere: dropping it from the
      fetch changes nothing. */
  lemma UnmatchedItemIgnored(items: seq<StoredItem>, j: nat, orders: seq<Order>, v: View)
    requires j < |items|
    requires forall k :: 0 <= k < |orders| ==> orders[k].orderId != items[j].orderId
    ensures AssignItems(items[..j] + items[j+1..], orders, v) == AssignItems(items, orders, v)
  {
    var rest := items[..j] + items[j+1..];
    forall id | id != items[j].orderId
      ensures RowsOf(rest, id) == RowsOf(items, id)
    {
      assert items == items[..j] + ([items[j]] + items[j+1..]);
      RowsOfAppend(items[..j], [items[j]] + items[j+1..], id);
      RowsOfAppend([items[j]], items[j+1..], id);
      RowsOfAppend(items[..j], items[j+1..], id);
    }
    AssignItemsCharacterized(rest, orders, v);
    AssignItemsCharacterized(items, orders, v);
  }

  // ---------------------------------------------------------------------------
  // Counting: every row is added once per order that carries its id.

  /** The order ids are pairwise distinct. */
  predicate UniqueIds(orders: seq<Order>) {
    forall i, j :: 0 <= i < j < |orders| ==> orders[i].orderId != orders[j].orderId
  }

  /** How many orders carry the id `id`. */
  function CountId(orders: seq<Order>, id: Id): (n: nat)
    ensures n <= |orders|
    ensures n == 0 <==> forall k :: 0 <= k < |orders| ==> orders[k].orderId != id
  {
    if |orders| == 0 then 0
    else (if orders[0].orderId == id then 1 else 0) + CountId(orders[1..], id)
  }

  /** The total number of items attached to the orders. */
  function TotalItems(orders: seq<Order>): nat {
    if |orders| == 0 then 0 else |orders[0].items| + TotalItems(orders[1..])
  }

  /** The total, over the rows, of the number of orders each row's id names. */
  function Placements(items: seq<StoredItem>, orders: seq<Order>): nat {
    if |items| == 0 then 0 else CountId(orders, items[0].orderId) + Placements(items[1..], orders)
  }

  /** How many rows name some order. */
  function MatchedRows(items: seq<StoredItem>, orders: seq<Order>): (n: nat)
    ensures n <= |items|
  {
    if |items| == 0 then 0
    else (if CountId(orders, items[0].orderId) > 0 then 1 else 0) + MatchedRows(items[1..], orders)
  }

  lemma {:induction false} UniqueCountAtMostOne(orders: seq<Order>, id: Id)
    requires UniqueIds(orders)
    ensures CountId(orders, id) <= 1
    decreases |orders|
  {
    if |orders| > 0 {
      UniqueCountAtMostOne(orders[1..], id);
      if orders[0].orderId == id {
        assert forall k :: 0 <= k < |orders[1..]| ==> orders[1..][k].orderId != id by {
          forall k | 0 <= k < |orders[1..]| ensures orders[1..][k].orderId != id {
            assert orders[1..][k] == orders[k + 1];
          }
        }
      }
    }
  }

  lemma {:induction false} AddItemTotal(it: StoredItem, orders: seq<Order>, v: View)
    ensures TotalItems(AddItem(it, orders, v)) == TotalItems(orders) + CountId(orders, it.orderId)
    decreases |orders|
  {
    if |orders| > 0 {
      var r := AddItem(it, orders, v);
      assert r[1..] == AddItem(it, orders[1..], v);
      AddItemTotal(it, orders[1..], v);
    }
  }

  lemma {:induction false} CountIdAfterAddItem(it: StoredItem, orders: seq<Order>, v: View, id: Id)
    ensures CountId(AddItem(it, orders, v), id) == CountId(orders, id)
    decreases |orders|
  {
    if |orders| > 0 {
      var r := AddItem(it, orders, v);
      assert r[1..] == AddItem(it, orders[1..], v);
      CountIdAfterAddItem(it, orders[1..], v, id);
    }
  }

  lemma {:induction false} PlacementsAfterAddItem(items: seq<StoredItem>, it: StoredItem, orders: seq<Order>, v: View)
    ensures Placements(items, AddItem(it, orders, v)) == Placements(items, orders)
    decreases |items|
  {
    if |items| > 0 {
      CountIdAfterAddItem(it, orders, v, items[0].orderId);
      PlacementsAfterAddItem(items[1..], it, orders, v);
    }
  }

  /** Assembly adds exactly one item per pair (row, order carrying the row's id). */
  lemma {:induction false} AssignItemsTotal(items: seq<StoredItem>, orders: seq<Order>, v: View)
    ensures TotalItems(AssignItems(items, orders, v)) == TotalItems(orders) + Placements(items, orders)
    decreases |items|
  {
    if |items| > 0 {
      var next := AddItem(items[0], orders, v);
      AssignItemsTotal(items[1..], next, v);
      AddItemTotal(items[0], orders, v);
      PlacementsAfterAddItem(items[1..], items[0], orders, v);
    }
  }

  lemma {:induction false} UniquePlacements(items: seq<StoredItem>, orders: seq<Order>)
    requires UniqueIds(orders)
    ensures Placements(items, orders) == MatchedRows(items, orders)
    decreases |items|
  {
    if |items| > 0 {
      UniqueCountAtMostOne(orders, items[0].orderId);
      UniquePlacements(items[1..], orders);
    }
  }

  /** With unique order ids, assembly adds every row that names an order exactly once
      and every other row nowhere. */
  lemma AssignItemsPlacesEachMatchedRowOnce(items: seq<StoredItem>, orders: seq<Order>, v: View)
    requires UniqueIds(orders)
    ensures TotalItems(AssignItems(items, orders, v)) == TotalItems(orders) + MatchedRows(items, orders)
  {
    AssignItemsTotal(items, orders, v);
    UniquePlacements(items, orders);
  }

  /** Every row is among the rows of its own order id. */
  lemma {:induction false} RowInOwnRows(items: seq<StoredItem>, j: nat)
    requires j < |items|
    ensures items[j] in RowsOf(items, items[j].orderId)
    decreases |items|
  {
    if j > 0 {
      RowInOwnRows(items[1..], j - 1);
      assert items[1..][j - 1] == items[j];
    }
  }

  /** With unique order ids, a row that names an order is among the rows assembled
      into that order and among the rows of no other order. */
  lemma MatchedRowLandsInOneOrder(items: seq<StoredItem>, j: nat, orders: seq<Order>, k0: nat)
    requires UniqueIds(orders)
    requires j < |items| && k0 < |orders| && orders[k0].orderId == items[j].orderId
    ensures items[j] in RowsOf(items, orders[k0].orderId)
    ensures forall k :: 0 <= k < |orders| && k != k0 ==> items[j] !in RowsOf(items, orders[k].orderId)
  {
    RowInOwnRows(items, j);
  }

  /** With unique order ids, one row grows exactly the order that carries its id. */
  lemma AddItemUniqueTarget(it: StoredItem, orders: seq<Order>, v: View, k0: nat)
    requires UniqueIds(orders)
    requires k0 < |orders| && orders[k0].orderId == it.orderId
    ensures forall k :: 0 <= k < |orders| ==>
              (|AddItem(it, orders, v)[k].items| == |orders[k].items| + 1 <==> k == k0)
    ensures forall k :: 0 <= k < |orders| && k != k0 ==> AddItem(it, orders, v)[k] == orders[k]
  {
  }
}
