/**
 * The POS batch inventory update of the data service: each request row is
 * matched to one of the restaurant's inventory items by uid, else by name,
 * else skipped, and a matched item takes the new stock level (and the unit,
 * when one is given).
 */
module DataInventory {
  import opened Common

  datatype InventoryRow = InventoryRow(
    uid: string,
    restaurantUid: string,
    name: string,
    category: string,
    unit: string,
    currentStock: real,
    minStock: real,
    maxStock: real,
    reorderPoint: real,
    unitCost: real,
    shelfLifeDays: int,
    supplierUid: Option<string>,
    dailyUsageAvg: real,
    wastagePct: real,
    updatedAt: int)

  /** The inventory-items table, in insertion order. */
  class InventoryTable {
    var rows: seq<InventoryRow>

    constructor()
      ensures rows == []
    {
      rows := [];
    }
  }

  /** One row of a batch update. */
  datatype StockUpdate = StockUpdate(itemUid: Option<string>, name: Option<string>, newStock: real, unit: Option<string>)

  /** The item a request row updates: by uid when one is given, else by name when one is given, else none. */
  function StockTarget(rows: seq<InventoryRow>, r: string, u: StockUpdate): (t: Option<nat>)
    ensures t.Some? ==> t.value < |rows| && rows[t.value].restaurantUid == r
    ensures Present(u.itemUid) && t.Some? ==> rows[t.value].uid == u.itemUid.value
    ensures !Present(u.itemUid) && Present(u.name) && t.Some? ==> rows[t.value].name == u.name.value
    ensures !Present(u.itemUid) && !Present(u.name) ==> t.None?
  {
    if Present(u.itemUid) then FirstIndex(rows, (i: InventoryRow) => i.restaurantUid == r && i.uid == u.itemUid.value)
    else if Present(u.name) then FirstIndex(rows, (i: InventoryRow) => i.restaurantUid == r && i.name == u.name.value)
    else None
  }

  /** A matched item after the update. */
  function Restocked(i: InventoryRow, u: StockUpdate, now: int): InventoryRow {
    i.(currentStock := u.newStock, unit := if Present(u.unit) then u.unit.value else i.unit, updatedAt := now)
  }

  datatype Updated = Updated(rows: seq<InventoryRow>, results: seq<nat>)

  /** batch_update_inventory over the first request rows. */
  function BatchSpec(rows0: seq<InventoryRow>, r: string, items: seq<StockUpdate>, now: int): (s: Updated)
    ensures |s.rows| == |rows0|
  {
    if |items| == 0 then Updated(rows0, [])
    else
      var s := BatchSpec(rows0, r, items[..|items| - 1], now);
      var t := StockTarget(s.rows, r, items[|items| - 1]);
      if t.Some? then Updated(s.rows[t.value := Restocked(s.rows[t.value], items[|items| - 1], now)], s.results + [t.value])
      else s
  }

  /** An update never changes which item a request row matches. */
  lemma {:induction false} BatchKeepsIdentity(rows0: seq<InventoryRow>, r: string, items: seq<StockUpdate>, now: int)
    ensures var s := BatchSpec(rows0, r, items, now);
      forall k :: 0 <= k < |rows0| ==>
        s.rows[k].uid == rows0[k].uid && s.rows[k].name == rows0[k].name && s.rows[k].restaurantUid == rows0[k].restaurantUid
  {
    if |items| > 0 {
      BatchKeepsIdentity(rows0, r, items[..|items| - 1], now);
    }
  }

  /** Rows that agree on uid, name and restaurant give every request row the same match. */
  lemma SameTarget(a: seq<InventoryRow>, b: seq<InventoryRow>, r: string, u: StockUpdate)
    requires |a| == |b|
    requires forall k :: 0 <= k < |a| ==> a[k].uid == b[k].uid && a[k].name == b[k].name && a[k].restaurantUid == b[k].restaurantUid
    ensures StockTarget(a, r, u) == StockTarget(b, r, u)
  {
    var ta := StockTarget(a, r, u);
    var tb := StockTarget(b, r, u);
    if ta.Some? && tb.Some? {
      if ta.value < tb.value {
        assert b[ta.value].restaurantUid == r;
      } else if tb.value < ta.value {
        assert a[tb.value].restaurantUid == r;
      }
    } else if ta.Some? {
      assert b[ta.value].restaurantUid == r;
    } else if tb.Some? {
      assert a[tb.value].restaurantUid == r;
    }
  }

  /** The last request row matching item k, if any. */
  function LastMatch(rows0: seq<InventoryRow>, r: string, items: seq<StockUpdate>, k: nat): (j: Option<nat>)
    ensures j.Some? ==> j.value < |items| && StockTarget(rows0, r, items[j.value]) == Some(k)
    ensures j.Some? ==> forall m :: j.value < m < |items| ==> StockTarget(rows0, r, items[m]) != Some(k)
    ensures j.None? ==> forall m :: 0 <= m < |items| ==> StockTarget(rows0, r, items[m]) != Some(k)
  {
    if |items| == 0 then None
    else if StockTarget(rows0, r, items[|items| - 1]) == Some(k) then Some(|items| - 1)
    else
      var j := LastMatch(rows0, r, items[..|items| - 1], k);
      assert forall m :: 0 <= m < |items| - 1 ==> items[..|items| - 1][m] == items[m];
      j
  }

  /** The last request row matching item k that gives a unit, if any. */
  function LastUnitMatch(rows0: seq<InventoryRow>, r: string, items: seq<StockUpdate>, k: nat): (j: Option<nat>)
    ensures j.Some? ==> j.value < |items| && StockTarget(rows0, r, items[j.value]) == Some(k) && Present(items[j.value].unit)
    ensures j.Some? ==> forall m :: j.value < m < |items| ==> !(StockTarget(rows0, r, items[m]) == Some(k) && Present(items[m].unit))
    ensures j.None? ==> forall m :: 0 <= m < |items| ==> !(StockTarget(rows0, r, items[m]) == Some(k) && Present(items[m].unit))
  {
    if |items| == 0 then None
    else if StockTarget(rows0, r, items[|items| - 1]) == Some(k) && Present(items[|items| - 1].unit) then Some(|items| - 1)
    else
      var j := LastUnitMatch(rows0, r, items[..|items| - 1], k);
      assert forall m :: 0 <= m < |items| - 1 ==> items[..|items| - 1][m] == items[m];
      j
  }

  /** The unit item k ends with: that of the last matching row giving one, else its own. */
  function UnitAfter(rows0: seq<InventoryRow>, r: string, items: seq<StockUpdate>, k: nat): string
    requires k < |rows0|
  {
    var j := LastUnitMatch(rows0, r, items, k);
    if j.Some? then items[j.value].unit.value else rows0[k].unit
  }

  /**
   * After the batch an item that some request row matched has the stock of
   * the last row that matched it, the unit of the last matching row that
   * gives one (its own unit when none does) and the update time, and every
   * other field as before; an item no row matched is as it was. Every
   * result is a matched item of the restaurant, one per matched request row.
   */
  lemma {:induction false} BatchFacts(rows0: seq<InventoryRow>, r: string, items: seq<StockUpdate>, now: int)
    ensures var s := BatchSpec(rows0, r, items, now);
      && |s.results| <= |items|
      && (forall j :: 0 <= j < |s.results| ==> s.results[j] < |rows0| && rows0[s.results[j]].restaurantUid == r)
      && (forall k :: 0 <= k < |rows0| ==>
            var m := LastMatch(rows0, r, items, k);
            && (m.None? ==> s.rows[k] == rows0[k])
            && (m.Some? ==> s.rows[k] == rows0[k].(currentStock := items[m.value].newStock,
                                                   unit := UnitAfter(rows0, r, items, k), updatedAt := now))
            && (m.Some? && Present(items[m.value].unit) ==> s.rows[k].unit == items[m.value].unit.value))
  {
    if |items| > 0 {
      var n := |items| - 1;
      var front := items[..n];
      BatchFacts(rows0, r, front, now);
      BatchKeepsIdentity(rows0, r, front, now);
      var s := BatchSpec(rows0, r, front, now);
      SameTarget(s.rows, rows0, r, items[n]);
      var t := StockTarget(rows0, r, items[n]);
      forall k | 0 <= k < |rows0|
        ensures var m := LastMatch(rows0, r, items, k);
          && (m.None? ==> BatchSpec(rows0, r, items, now).rows[k] == rows0[k])
          && (m.Some? ==> BatchSpec(rows0, r, items, now).rows[k] == rows0[k].(currentStock := items[m.value].newStock,
                                                   unit := UnitAfter(rows0, r, items, k), updatedAt := now))
          && (m.Some? && Present(items[m.value].unit) ==> BatchSpec(rows0, r, items, now).rows[k].unit == items[m.value].unit.value)
      {
        if t != Some(k) {
          assert LastMatch(rows0, r, items, k) == LastMatch(rows0, r, front, k);
          assert LastUnitMatch(rows0, r, items, k) == LastUnitMatch(rows0, r, front, k);
          var m := LastMatch(rows0, r, front, k);
          if m.Some? {
            assert front[m.value] == items[m.value];
          }
          var lu := LastUnitMatch(rows0, r, front, k);
          if lu.Some? {
            assert front[lu.value] == items[lu.value];
          }
        } else {
          assert LastMatch(rows0, r, items, k) == Some(n);
          if !Present(items[n].unit) {
            assert LastUnitMatch(rows0, r, items, k) == LastUnitMatch(rows0, r, front, k);
            var lu := LastUnitMatch(rows0, r, front, k);
            if lu.Some? {
              assert front[lu.value] == items[lu.value];
              assert LastMatch(rows0, r, front, k).Some?;
            }
          }
        }
      }
    }
  }

  /** batch_update_inventory: applies the request rows in turn and returns the matched items' positions. */
  method BatchUpdateInventory(inv: InventoryTable, r: string, items: seq<StockUpdate>, now: int) returns (results: seq<nat>)
    modifies inv
    ensures inv.rows == BatchSpec(old(inv.rows), r, items, now).rows
    ensures results == BatchSpec(old(inv.rows), r, items, now).results
  {
    ghost var rows0 := inv.rows;
    results := [];
    var i := 0;
    while i < |items|
      invariant 0 <= i <= |items|
      invariant inv.rows == BatchSpec(rows0, r, items[..i], now).rows
      invariant results == BatchSpec(rows0, r, items[..i], now).results
    {
      assert items[..i + 1][..i] == items[..i];
      var u := items[i];
      var t := StockTarget(inv.rows, r, u);
      if t.Some? {
        var item := inv.rows[t.value];
        item := item.(currentStock := u.newStock);
        if Present(u.unit) {
          item := item.(unit := u.unit.value);
        }
        item := item.(updatedAt := now);
        inv.rows := inv.rows[t.value := item];
        results := results + [t.value];
      }
      i := i + 1;
    }
    assert items[..|items|] == items;
  }
}
