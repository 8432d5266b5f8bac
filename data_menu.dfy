/**
 * The menu operations of the data service: the POS menu sync that upserts
 * items by (restaurant, name) and the single-item partial update. Both keep
 * the food-cost percentage derived from cost and price whenever the price is
 * positive.
 *
 * The store's session does not flush before a query, so the lookups of one
 * sync see the table as it was committed before the sync: an item created
 * earlier in the same request is not found again, while a committed item
 * updated earlier in the request is found and updated once more.
 */
module DataMenu {
  import opened Common

  datatype MenuRow = MenuRow(
    uid: string,
    restaurantUid: string,
    name: string,
    category: string,
    price: real,
    cost: real,
    prepTimeMinutes: int,
    ingredients: seq<string>,
    isActive: bool,
    popularityScore: real,
    avgDailyOrders: real,
    foodCostPct: real,
    createdAt: int,
    updatedAt: int)

  /** The menu-items table, in insertion order. */
  class MenuTable {
    var rows: seq<MenuRow>

    constructor()
      ensures rows == []
    {
      rows := [];
    }
  }

  /** One item of a sync request, with every field the request carries. */
  datatype SyncItem = SyncItem(
    name: string,
    category: string,
    price: real,
    cost: real,
    prepTimeMinutes: int,
    ingredients: seq<string>,
    isActive: bool,
    popularityScore: real,
    avgDailyOrders: real)

  /** cost / price * 100 */
  function FoodCostPct(cost: real, price: real): real
    requires price > 0.0
  {
    (cost / price) * 100.0
  }

  /** A row whose positive price determines its food-cost percentage. */
  predicate FoodCostConsistent(m: MenuRow) {
    m.price > 0.0 ==> m.foodCostPct == FoodCostPct(m.cost, m.price)
  }

  /** The committed row a sync item upserts: the first of the restaurant with the item's name. */
  function SyncTarget(committed: seq<MenuRow>, r: string, name: string): Option<nat> {
    FirstIndex(committed, (m: MenuRow) => m.restaurantUid == r && m.name == name)
  }

  /** An existing row overwritten with a sync item. */
  function Overwritten(m: MenuRow, it: SyncItem, now: int): (n: MenuRow)
    ensures FoodCostConsistent(n)
    ensures n.uid == m.uid && n.restaurantUid == m.restaurantUid && n.createdAt == m.createdAt
    ensures n.price <= 0.0 ==> n.foodCostPct == m.foodCostPct
  {
    var n := m.(name := it.name, category := it.category, price := it.price, cost := it.cost,
                prepTimeMinutes := it.prepTimeMinutes, ingredients := it.ingredients, isActive := it.isActive,
                popularityScore := it.popularityScore, avgDailyOrders := it.avgDailyOrders, updatedAt := now);
    if n.price > 0.0 then n.(foodCostPct := FoodCostPct(n.cost, n.price)) else n
  }

  /** A new row created from a sync item. */
  function Created(uid: string, r: string, it: SyncItem, now: int): (n: MenuRow)
    ensures FoodCostConsistent(n)
    ensures n.price <= 0.0 ==> n.foodCostPct == 0.0
  {
    MenuRow(uid, r, it.name, it.category, it.price, it.cost, it.prepTimeMinutes, it.ingredients, it.isActive,
            it.popularityScore, it.avgDailyOrders, if it.price > 0.0 then FoodCostPct(it.cost, it.price) else 0.0,
            now, now)
  }

  /** The table and the result list of a sync. */
  datatype Synced = Synced(rows: seq<MenuRow>, results: seq<nat>)

  /**
   * sync_menu over the first items of a request: each item overwrites its
   * committed target, or appends a new row with the uid freshUid assigns to
   * its position; the results list the row each item ended up in.
   */
  function SyncSpec(committed: seq<MenuRow>, r: string, items: seq<SyncItem>, now: int, freshUid: nat -> string): (s: Synced)
    ensures |committed| <= |s.rows| && |s.results| == |items|
  {
    if |items| == 0 then Synced(committed, [])
    else
      var s := SyncSpec(committed, r, items[..|items| - 1], now, freshUid);
      var it := items[|items| - 1];
      var t := SyncTarget(committed, r, it.name);
      if t.Some? then Synced(s.rows[t.value := Overwritten(s.rows[t.value], it, now)], s.results + [t.value])
      else Synced(s.rows + [Created(freshUid(|items| - 1), r, it, now)], s.results + [|s.rows|])
  }

  /**
   * Where each item lands: in its committed target when the restaurant had
   * the name, otherwise in a row of its own past the committed ones.
   */
  lemma {:induction false} SyncLanding(committed: seq<MenuRow>, r: string, items: seq<SyncItem>, now: int, freshUid: nat -> string)
    ensures var s := SyncSpec(committed, r, items, now, freshUid);
      forall j :: 0 <= j < |items| ==>
        && s.results[j] < |s.rows|
        && (SyncTarget(committed, r, items[j].name).Some? ==> s.results[j] == SyncTarget(committed, r, items[j].name).value)
        && (SyncTarget(committed, r, items[j].name).None? ==> s.results[j] >= |committed|)
  {
    if |items| > 0 {
      var n := |items| - 1;
      SyncLanding(committed, r, items[..n], now, freshUid);
      SyncStep(committed, r, items, now, freshUid);
      var s := SyncSpec(committed, r, items[..n], now, freshUid);
      var s' := SyncSpec(committed, r, items, now, freshUid);
      forall j | 0 <= j < |items|
        ensures s'.results[j] < |s'.rows|
        ensures SyncTarget(committed, r, items[j].name).Some? ==> s'.results[j] == SyncTarget(committed, r, items[j].name).value
        ensures SyncTarget(committed, r, items[j].name).None? ==> s'.results[j] >= |committed|
      {
        if j < n {
          assert s'.results[j] == s.results[j];
          assert items[..n][j] == items[j];
        }
      }
    }
  }

  /** One more item appends one result and never shrinks the table. */
  lemma SyncStep(committed: seq<MenuRow>, r: string, items: seq<SyncItem>, now: int, freshUid: nat -> string)
    requires |items| > 0
    ensures var n := |items| - 1;
      var s := SyncSpec(committed, r, items[..n], now, freshUid);
      var s' := SyncSpec(committed, r, items, now, freshUid);
      var t := SyncTarget(committed, r, items[n].name);
      && |s.rows| <= |s'.rows|
      && s'.results == s.results + [if t.Some? then t.value else |s.rows|]
      && (t.Some? ==> t.value < |committed|)
  {
  }

  /** The committed rows keep their uid, restaurant and name. */
  lemma {:induction false} SyncKeepsIdentity(committed: seq<MenuRow>, r: string, items: seq<SyncItem>, now: int, freshUid: nat -> string)
    ensures var s := SyncSpec(committed, r, items, now, freshUid);
      forall k :: 0 <= k < |committed| ==>
        s.rows[k].uid == committed[k].uid && s.rows[k].restaurantUid == committed[k].restaurantUid
        && s.rows[k].name == committed[k].name
  {
    if |items| > 0 {
      var n := |items| - 1;
      SyncKeepsIdentity(committed, r, items[..n], now, freshUid);
    }
  }

  /** Every row an item landed in belongs to the restaurant and has its food cost derived from its price. */
  lemma {:induction false} SyncLandedRows(committed: seq<MenuRow>, r: string, items: seq<SyncItem>, now: int, freshUid: nat -> string)
    ensures var s := SyncSpec(committed, r, items, now, freshUid);
      forall j :: 0 <= j < |items| ==>
        s.results[j] < |s.rows| && s.rows[s.results[j]].restaurantUid == r && FoodCostConsistent(s.rows[s.results[j]])
  {
    if |items| > 0 {
      var n := |items| - 1;
      SyncLandedRows(committed, r, items[..n], now, freshUid);
      SyncLanding(committed, r, items[..n], now, freshUid);
      SyncKeepsIdentity(committed, r, items[..n], now, freshUid);
      var s := SyncSpec(committed, r, items[..n], now, freshUid);
      var t := SyncTarget(committed, r, items[n].name);
      var s' := SyncSpec(committed, r, items, now, freshUid);
      forall j | 0 <= j < |items|
        ensures s'.results[j] < |s'.rows| && s'.rows[s'.results[j]].restaurantUid == r
        ensures FoodCostConsistent(s'.rows[s'.results[j]])
      {
        if j < n {
          assert s'.results[j] == s.results[j];
          if t.None? || s.results[j] != t.value {
            assert s'.rows[s.results[j]] == s.rows[s.results[j]];
          }
        }
      }
    }
  }

  /** A row no item landed in is a committed row the sync left as it was. */
  lemma {:induction false} SyncUntouched(committed: seq<MenuRow>, r: string, items: seq<SyncItem>, now: int, freshUid: nat -> string)
    ensures var s := SyncSpec(committed, r, items, now, freshUid);
      forall k :: 0 <= k < |s.rows| && k !in s.results ==> k < |committed| && s.rows[k] == committed[k]
  {
    if |items| > 0 {
      SyncUntouched(committed, r, items[..|items| - 1], now, freshUid);
    }
  }

  /**
   * sync_menu: upserts every request item in turn and returns, for each
   * item, the position in the table of the row it landed in (the returned
   * objects alias the table's rows, so they show the rows' final state).
   */
  method SyncMenu(menu: MenuTable, r: string, items: seq<SyncItem>, now: int, freshUid: nat -> string)
    returns (results: seq<nat>)
    modifies menu
    ensures menu.rows == SyncSpec(old(menu.rows), r, items, now, freshUid).rows
    ensures results == SyncSpec(old(menu.rows), r, items, now, freshUid).results
  {
    var committed := menu.rows;
    results := [];
    var i := 0;
    while i < |items|
      invariant 0 <= i <= |items|
      invariant menu.rows == SyncSpec(committed, r, items[..i], now, freshUid).rows
      invariant results == SyncSpec(committed, r, items[..i], now, freshUid).results
    {
      var it := items[i];
      assert items[..i + 1][..i] == items[..i];
      var t := SyncTarget(committed, r, it.name);
      if t.Some? {
        menu.rows := menu.rows[t.value := Overwritten(menu.rows[t.value], it, now)];
        results := results + [t.value];
      } else {
        results := results + [|menu.rows|];
        menu.rows := menu.rows + [Created(freshUid(i), r, it, now)];
      }
      i := i + 1;
    }
    assert items[..|items|] == items;
  }

  // ---------------------------------------------------------------------
  // Single-item update

  /** A partial update: only the fields that are given are applied. */
  datatype MenuUpdate = MenuUpdate(
    name: Option<string>,
    category: Option<string>,
    price: Option<real>,
    cost: Option<real>,
    prepTimeMinutes: Option<int>,
    ingredients: Option<seq<string>>,
    isActive: Option<bool>)

  function Pick<T>(given: Option<T>, current: T): T {
    if given.Some? then given.value else current
  }

  /** A row after update_menu_item's field loop, cost recomputation and timestamp. */
  function Patched(m: MenuRow, u: MenuUpdate, now: int): MenuRow {
    var n := m.(name := Pick(u.name, m.name), category := Pick(u.category, m.category),
                price := Pick(u.price, m.price), cost := Pick(u.cost, m.cost),
                prepTimeMinutes := Pick(u.prepTimeMinutes, m.prepTimeMinutes),
                ingredients := Pick(u.ingredients, m.ingredients), isActive := Pick(u.isActive, m.isActive));
    (if n.price > 0.0 then n.(foodCostPct := FoodCostPct(n.cost, n.price)) else n).(updatedAt := now)
  }

  /**
   * A given field is set and a missing one kept; identity, popularity and
   * order figures never change; the food-cost percentage is derived from a
   * positive price and kept otherwise.
   */
  lemma PatchedFacts(m: MenuRow, u: MenuUpdate, now: int)
    ensures var n := Patched(m, u, now);
      && (u.name.Some? ==> n.name == u.name.value) && (u.name.None? ==> n.name == m.name)
      && (u.price.Some? ==> n.price == u.price.value) && (u.price.None? ==> n.price == m.price)
      && (u.cost.Some? ==> n.cost == u.cost.value) && (u.cost.None? ==> n.cost == m.cost)
      && (u.isActive.Some? ==> n.isActive == u.isActive.value) && (u.isActive.None? ==> n.isActive == m.isActive)
      && n.uid == m.uid && n.restaurantUid == m.restaurantUid && n.createdAt == m.createdAt
      && n.popularityScore == m.popularityScore && n.avgDailyOrders == m.avgDailyOrders
      && FoodCostConsistent(n)
      && (n.price <= 0.0 ==> n.foodCostPct == m.foodCostPct)
      && n.updatedAt == now
  {
  }

  /** update_menu_item: None for an unknown uid, else the first row with the uid, patched. */
  method UpdateMenuItem(menu: MenuTable, uid: string, u: MenuUpdate, now: int) returns (res: Option<MenuRow>)
    modifies menu
    ensures var i := FirstIndex(old(menu.rows), (m: MenuRow) => m.uid == uid);
      && (i.None? ==> res.None? && menu.rows == old(menu.rows))
      && (i.Some? ==> res == Some(Patched(old(menu.rows)[i.value], u, now))
                      && menu.rows == old(menu.rows)[i.value := res.value])
  {
    var i := FirstIndex(menu.rows, (m: MenuRow) => m.uid == uid);
    if i.None? {
      return None;
    }
    var item := menu.rows[i.value];
    item := item.(name := Pick(u.name, item.name), category := Pick(u.category, item.category),
                  price := Pick(u.price, item.price), cost := Pick(u.cost, item.cost),
                  prepTimeMinutes := Pick(u.prepTimeMinutes, item.prepTimeMinutes),
                  ingredients := Pick(u.ingredients, item.ingredients), isActive := Pick(u.isActive, item.isActive));
    if item.price > 0.0 {
      item := item.(foodCostPct := (item.cost / item.price) * 100.0);
    }
    item := item.(updatedAt := now);
    menu.rows := menu.rows[i.value := item];
    res := Some(item);
  }
}
