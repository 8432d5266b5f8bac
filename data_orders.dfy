/**
 * Orders as the data service stores and lists them: an order row with its
 * line rows, the order total as the sum of the line totals, and the
 * filtered, newest-first, paged listing.
 */
module DataOrders {
  import opened Common
  import Sorting

  /** One line of an order request. */
  datatype LineIn = LineIn(menuItemUid: Option<string>, itemName: string, quantity: int, unitPrice: real)

  /**
   * An order request as a dictionary: a field that is None is a key that is
   * absent, for which the service supplies its default.
   */
  datatype OrderIn = OrderIn(
    restaurantUid: string,
    channel: Option<string>,
    covers: Option<int>,
    tableNumber: Option<int>,
    posReference: Option<string>,
    items: seq<LineIn>)

  datatype Order = Order(
    uid: string,
    restaurantUid: string,
    orderDate: int,
    channel: string,
    totalAmount: real,
    covers: int,
    tableNumber: Option<int>,
    posReference: Option<string>,
    createdAt: int)

  datatype LineRow = LineRow(orderUid: string, menuItemUid: Option<string>, itemName: string,
                             quantity: int, unitPrice: real, totalPrice: real)

  /** The orders table and the order-items table, in insertion order. */
  class OrderTables {
    var orders: seq<Order>
    var lines: seq<LineRow>

    constructor()
      ensures orders == [] && lines == []
    {
      orders := [];
      lines := [];
    }
  }

  /** quantity * unit_price of one line. */
  function LineTotal(l: LineIn): real {
    (l.quantity as real) * l.unitPrice
  }

  /** The stored row of a request line. */
  function LineRowOf(orderUid: string, l: LineIn): (r: LineRow)
    ensures r.totalPrice == LineTotal(l) && r.quantity == l.quantity && r.unitPrice == l.unitPrice
  {
    LineRow(orderUid, l.menuItemUid, l.itemName, l.quantity, l.unitPrice, (l.quantity as real) * l.unitPrice)
  }

  /** The line rows of an order, one per request line, in order. */
  function LineRows(orderUid: string, items: seq<LineIn>): (r: seq<LineRow>)
    ensures |r| == |items|
    ensures forall i :: 0 <= i < |items| ==> r[i] == LineRowOf(orderUid, items[i])
  {
    if |items| == 0 then [] else LineRows(orderUid, items[..|items| - 1]) + [LineRowOf(orderUid, items[|items| - 1])]
  }

  /** The order row create_order inserts. */
  function NewOrder(data: OrderIn, uid: string, now: int): Order {
    Order(uid, data.restaurantUid, now,
          if data.channel.Some? then data.channel.value else "dine_in",
          SumOf(data.items, LineTotal),
          if data.covers.Some? then data.covers.value else 1,
          data.tableNumber, data.posReference, now)
  }

  function RowTotal(r: LineRow): real { r.totalPrice }

  /** The order's total is the sum of its stored line totals. */
  lemma {:induction false} OrderTotalIsLineSum(orderUid: string, items: seq<LineIn>)
    ensures SumOf(LineRows(orderUid, items), RowTotal) == SumOf(items, LineTotal)
  {
    if |items| > 0 {
      var front := items[..|items| - 1];
      OrderTotalIsLineSum(orderUid, front);
      var rows := LineRows(orderUid, items);
      assert rows[..|rows| - 1] == LineRows(orderUid, front);
    }
  }

  /** The defaults create_order supplies for missing keys. */
  lemma NewOrderDefaults(data: OrderIn, uid: string, now: int)
    ensures data.channel.None? ==> NewOrder(data, uid, now).channel == "dine_in"
    ensures data.covers.None? ==> NewOrder(data, uid, now).covers == 1
    ensures data.items == [] ==> NewOrder(data, uid, now).totalAmount == 0.0
  {
  }

  /**
   * create_order: inserts the order with its total, then one line row per
   * request line, each with its own total.
   */
  method CreateOrder(t: OrderTables, data: OrderIn, uid: string, now: int) returns (o: Order)
    modifies t
    ensures o == NewOrder(data, uid, now) && o.totalAmount == SumOf(LineRows(uid, data.items), RowTotal)
    ensures t.orders == old(t.orders) + [o]
    ensures t.lines == old(t.lines) + LineRows(uid, data.items)
  {
    var total := SumOf(data.items, LineTotal);
    o := Order(uid, data.restaurantUid, now,
               if data.channel.Some? then data.channel.value else "dine_in",
               total,
               if data.covers.Some? then data.covers.value else 1,
               data.tableNumber, data.posReference, now);
    t.orders := t.orders + [o];
    ghost var lines0 := t.lines;
    var i := 0;
    while i < |data.items|
      invariant 0 <= i <= |data.items|
      invariant t.orders == old(t.orders) + [o]
      invariant t.lines == lines0 + LineRows(uid, data.items[..i])
    {
      var item := data.items[i];
      assert data.items[..i + 1][..i] == data.items[..i];
      t.lines := t.lines + [LineRowOf(uid, item)];
      i := i + 1;
    }
    assert data.items[..|data.items|] == data.items;
    OrderTotalIsLineSum(uid, data.items);
  }

  // ---------------------------------------------------------------------
  // Listing

  /** The filters of get_orders; an empty restaurant uid filters nothing. */
  predicate MatchesOrder(o: Order, r: Option<string>, from: Option<int>, to: Option<int>) {
    && (Present(r) ==> o.restaurantUid == r.value)
    && (from.Some? ==> o.orderDate >= from.value)
    && (to.Some? ==> o.orderDate <= to.value)
  }

  function OrderDateKey(o: Order): real { o.orderDate as real }

  /** The matching orders, newest first (orders of equal date keep their table order). */
  function MatchingNewestFirst(orders: seq<Order>, r: Option<string>, from: Option<int>, to: Option<int>): seq<Order> {
    Sorting.SortByDesc(Filter(orders, (o: Order) => MatchesOrder(o, r, from, to)), OrderDateKey)
  }

  /**
   * get_orders: one page of the matching orders and the count of all of them.
   * The count is taken before paging: it is the number of matching orders,
   * however the page is cut. The page is the slice of the sorted matches at
   * offset, all matching and newest first; it holds min(limit, what remains)
   * orders, and everything that remains when the limit is negative, which
   * SQLite reads as no limit.
   */
  function GetOrders(orders: seq<Order>, r: Option<string>, from: Option<int>, to: Option<int>, limit: int, offset: nat)
    : (res: (seq<Order>, nat))
    ensures var (page, total) := res;
      var sorted := MatchingNewestFirst(orders, r, from, to);
      && total == |sorted|
      && (limit >= 0 ==> |page| <= limit && |page| == IMin(limit, IMax(0, total - offset)))
      && (limit < 0 ==> |page| == IMax(0, total - offset))
      && (0 <= limit && offset + limit <= total ==> |page| == limit)
      && (|page| == 0 || offset + |page| <= total)
      && (forall i :: 0 <= i < |page| ==> page[i] == sorted[offset + i] && MatchesOrder(page[i], r, from, to))
      && (forall i, j :: 0 <= i < j < |page| ==> page[i].orderDate >= page[j].orderDate)
  {
    MatchingNewestFirstFacts(orders, r, from, to);
    var sorted := MatchingNewestFirst(orders, r, from, to);
    var start := IMin(offset, |sorted|);
    (if limit < 0 then sorted[start..] else sorted[start..IMin(offset + limit, |sorted|)],
     CountOf(orders, (o: Order) => MatchesOrder(o, r, from, to)))
  }

  /** The sorted matches are exactly as many as the matching orders, all matching, newest first. */
  lemma MatchingNewestFirstFacts(orders: seq<Order>, r: Option<string>, from: Option<int>, to: Option<int>)
    ensures var sorted := MatchingNewestFirst(orders, r, from, to);
      && |sorted| == CountOf(orders, (o: Order) => MatchesOrder(o, r, from, to))
      && (forall i :: 0 <= i < |sorted| ==> MatchesOrder(sorted[i], r, from, to))
      && (forall i, j :: 0 <= i < j < |sorted| ==> sorted[i].orderDate >= sorted[j].orderDate)
  {
    var p := (o: Order) => MatchesOrder(o, r, from, to);
    var matching := Filter(orders, p);
    CountOfIsFilterLength(orders, p);
    Sorting.SortByDescCorrect(matching, OrderDateKey);
    var sorted := MatchingNewestFirst(orders, r, from, to);
    forall i | 0 <= i < |sorted|
      ensures MatchesOrder(sorted[i], r, from, to)
    {
      assert sorted[i] in multiset(matching);
      var j :| 0 <= j < |matching| && matching[j] == sorted[i];
    }
    forall i, j | 0 <= i < j < |sorted|
      ensures sorted[i].orderDate >= sorted[j].orderDate
    {
      assert OrderDateKey(sorted[i]) >= OrderDateKey(sorted[j]);
    }
  }
}
