/**
 * The inventory optimizer (inventory/optimizer.py): inventory health
 * analysis, reorder recommendations ranked by priority, procurement drafts
 * grouped by the best-scoring supplier, and waste metrics.
 */
module Optimizer {
  import opened Common
  import opened Core
  import Sorting

  // ---------------------------------------------------------------------
  // Per-item quantities and per-list aggregates, each defined on the last
  // element so that the accumulating loops below follow them step by step.

  function StockValue(item: InventoryItem): real {
    item.currentStock * item.unitCost
  }

  function TotalStockValue(inv: seq<InventoryItem>): real {
    if |inv| == 0 then 0.0 else TotalStockValue(inv[..|inv| - 1]) + StockValue(inv[|inv| - 1])
  }

  function TotalWastage(inv: seq<InventoryItem>): real {
    if |inv| == 0 then 0.0 else TotalWastage(inv[..|inv| - 1]) + inv[|inv| - 1].wastagePct
  }

  /** Number of items with the given stock status. */
  function StatusCount(inv: seq<InventoryItem>, s: StockStatus): nat {
    if |inv| == 0 then 0
    else StatusCount(inv[..|inv| - 1], s) + (if StockStatusOf(inv[|inv| - 1]) == s then 1 else 0)
  }

  /** Names of the items with the given stock status, in inventory order. */
  function StatusNames(inv: seq<InventoryItem>, s: StockStatus): seq<string> {
    if |inv| == 0 then []
    else StatusNames(inv[..|inv| - 1], s) + (if StockStatusOf(inv[|inv| - 1]) == s then [inv[|inv| - 1].name] else [])
  }

  /** Number of items whose wastage percentage exceeds t. */
  function WasteAboveCount(inv: seq<InventoryItem>, t: real): nat {
    if |inv| == 0 then 0
    else WasteAboveCount(inv[..|inv| - 1], t) + (if inv[|inv| - 1].wastagePct > t then 1 else 0)
  }

  function CatCount(inv: seq<InventoryItem>, c: IngredientCategory): nat {
    if |inv| == 0 then 0
    else CatCount(inv[..|inv| - 1], c) + (if inv[|inv| - 1].category == c then 1 else 0)
  }

  function CatValue(inv: seq<InventoryItem>, c: IngredientCategory): real {
    if |inv| == 0 then 0.0
    else CatValue(inv[..|inv| - 1], c) + (if inv[|inv| - 1].category == c then StockValue(inv[|inv| - 1]) else 0.0)
  }

  function CatWaste(inv: seq<InventoryItem>, c: IngredientCategory): real {
    if |inv| == 0 then 0.0
    else CatWaste(inv[..|inv| - 1], c) + (if inv[|inv| - 1].category == c then inv[|inv| - 1].wastagePct else 0.0)
  }

  /** How the per-category aggregates change when the list grows by one item. */
  lemma CategoryStep(inv: seq<InventoryItem>, i: nat)
    requires i < |inv|
    ensures forall c :: CatCount(inv[..i + 1], c) == CatCount(inv[..i], c) + (if inv[i].category == c then 1 else 0)
    ensures forall c :: CatValue(inv[..i + 1], c) == CatValue(inv[..i], c) + (if inv[i].category == c then StockValue(inv[i]) else 0.0)
    ensures forall c :: CatWaste(inv[..i + 1], c) == CatWaste(inv[..i], c) + (if inv[i].category == c then inv[i].wastagePct else 0.0)
  {
    assert inv[..i + 1][..i] == inv[..i];
  }

  /** A category with no items has nothing to sum. */
  lemma {:induction false} CatCountZero(inv: seq<InventoryItem>, c: IngredientCategory)
    requires CatCount(inv, c) == 0
    ensures CatValue(inv, c) == 0.0 && CatWaste(inv, c) == 0.0
  {
    if |inv| > 0 {
      CatCountZero(inv[..|inv| - 1], c);
    }
  }

  // ---------------------------------------------------------------------
  // analyze_inventory

  datatype CategoryStats = CategoryStats(count: nat, value: real, avgWaste: real)

  datatype InventoryAnalysis = InventoryAnalysis(
    totalItems: nat,
    totalValue: real,
    lowStockCount: nat,
    outOfStockCount: nat,
    overstockedCount: nat,
    highWasteCount: nat,
    lowStockItems: seq<string>,
    outOfStockItems: seq<string>,
    byCategory: map<IngredientCategory, CategoryStats>,
    avgWastage: real,
    healthScore: int)

  /** 100 minus the penalties, clamped to [0, 100]; a full 100 exactly when nothing is penalised. */
  function HealthScore(outCount: nat, lowCount: nat, overCount: nat, wasteCount: nat): (h: int)
    ensures 0 <= h <= 100
    ensures h == 100 <==> outCount == 0 && lowCount == 0 && overCount == 0 && wasteCount == 0
  {
    IMax(0, IMin(100, 100 - outCount * 15 - lowCount * 5 - overCount * 3 - wasteCount * 4))
  }

  /** The per-category statistics once the totals are rounded. */
  function CategoryRow(inv: seq<InventoryItem>, c: IngredientCategory): CategoryStats
    requires CatCount(inv, c) > 0
  {
    CategoryStats(CatCount(inv, c), Round2(CatValue(inv, c)),
                  Round1(CatWaste(inv, c) / (CatCount(inv, c) as real)))
  }

  method AnalyzeInventory(inv: seq<InventoryItem>) returns (r: InventoryAnalysis)
    ensures r.totalItems == |inv|
    ensures r.totalValue == Round2(TotalStockValue(inv))
    ensures r.lowStockCount == StatusCount(inv, StockStatus.Low) && r.lowStockItems == StatusNames(inv, StockStatus.Low)
    ensures r.outOfStockCount == StatusCount(inv, OutOfStock) && r.outOfStockItems == StatusNames(inv, OutOfStock)
    ensures r.overstockedCount == StatusCount(inv, Overstocked)
    ensures r.highWasteCount == WasteAboveCount(inv, 8.0)
    ensures forall c :: c in r.byCategory <==> CatCount(inv, c) > 0
    ensures forall c :: c in r.byCategory ==> r.byCategory[c] == CategoryRow(inv, c)
    ensures r.avgWastage == (if |inv| == 0 then 0.0 else Round1(TotalWastage(inv) / (|inv| as real)))
    ensures r.healthScore == HealthScore(StatusCount(inv, OutOfStock), StatusCount(inv, StockStatus.Low),
                                         StatusCount(inv, Overstocked), WasteAboveCount(inv, 10.0))
  {
    // Accumulate count, value and summed wastage per category.
    var acc: map<IngredientCategory, (nat, real, real)> := map[];
    var i := 0;
    while i < |inv|
      invariant 0 <= i <= |inv|
      invariant forall c :: c in acc <==> CatCount(inv[..i], c) > 0
      invariant forall c :: c in acc ==> acc[c] == (CatCount(inv[..i], c), CatValue(inv[..i], c), CatWaste(inv[..i], c))
    {
      var item := inv[i];
      var c := item.category;
      CategoryStep(inv, i);
      if c !in acc {
        CatCountZero(inv[..i], c);
        acc := acc[c := (0, 0.0, 0.0)];
      }
      acc := acc[c := (acc[c].0 + 1, acc[c].1 + StockValue(item), acc[c].2 + item.wastagePct)];
      i := i + 1;
    }
    assert inv[..|inv|] == inv;
    // Replace the sums by rounded values and averages.
    var byCategory: map<IngredientCategory, CategoryStats> := map[];
    var todo := acc.Keys;
    while todo != {}
      invariant todo <= acc.Keys
      invariant forall c :: c in byCategory <==> c in acc && c !in todo
      invariant forall c :: c in byCategory ==> byCategory[c] == CategoryRow(inv, c)
      decreases todo
    {
      var c :| c in todo;
      byCategory := byCategory[c := CategoryStats(acc[c].0, Round2(acc[c].1), Round1(acc[c].2 / (acc[c].0 as real)))];
      todo := todo - {c};
    }
    var avgWastage := if |inv| > 0 then Round1(TotalWastage(inv) / (|inv| as real)) else 0.0;
    var score := HealthScore(StatusCount(inv, OutOfStock), StatusCount(inv, StockStatus.Low),
                             StatusCount(inv, Overstocked), WasteAboveCount(inv, 10.0));
    r := InventoryAnalysis(|inv|, Round2(TotalStockValue(inv)), StatusCount(inv, StockStatus.Low),
                           StatusCount(inv, OutOfStock), StatusCount(inv, Overstocked),
                           WasteAboveCount(inv, 8.0), StatusNames(inv, StockStatus.Low), StatusNames(inv, OutOfStock),
                           byCategory, avgWastage, score);
  }

  /** Every item has exactly one stock status, so the four status counts partition the list. */
  lemma {:induction false} StatusCountsPartition(inv: seq<InventoryItem>)
    ensures StatusCount(inv, OutOfStock) + StatusCount(inv, StockStatus.Low) + StatusCount(inv, Overstocked)
            + StatusCount(inv, Normal) == |inv|
  {
    if |inv| > 0 {
      StatusCountsPartition(inv[..|inv| - 1]);
    }
  }

  /** The names listed for a status are exactly as many as the count for that status. */
  lemma {:induction false} StatusNamesCount(inv: seq<InventoryItem>, s: StockStatus)
    ensures |StatusNames(inv, s)| == StatusCount(inv, s)
  {
    if |inv| > 0 {
      StatusNamesCount(inv[..|inv| - 1], s);
    }
  }

  /** The by-category counts of the analysis add up to the number of items. */
  lemma {:induction false} CategoryCountsSum(inv: seq<InventoryItem>)
    ensures CatCount(inv, Protein) + CatCount(inv, Dairy) + CatCount(inv, Produce) + CatCount(inv, Grains)
            + CatCount(inv, Spices) + CatCount(inv, Beverages) + CatCount(inv, Oils) + CatCount(inv, Frozen)
            + CatCount(inv, DryGoods) + CatCount(inv, Packaging) == |inv|
  {
    if |inv| > 0 {
      CategoryCountsSum(inv[..|inv| - 1]);
    }
  }

  // ---------------------------------------------------------------------
  // generate_reorder_recommendations

  datatype Priority = Critical | High | Medium | Low

  /** The sort key: critical 0, high 1, medium 2, low 3. */
  function PriorityRank(p: Priority): real {
    match p
    case Critical => 0.0
    case High => 1.0
    case Medium => 2.0
    case Low => 3.0
  }

  function RankOf(r: Recommendation): real {
    PriorityRank(r.priority)
  }

  datatype Recommendation = Recommendation(
    itemName: string,
    itemUid: string,
    category: IngredientCategory,
    currentStock: real,
    unit: string,
    projectedUsage: real,
    orderQuantity: real,
    estimatedCost: real,
    priority: Priority,
    daysRemaining: Option<real>,
    supplierUid: Option<string>)

  /** Projected usage plus 1.5 days of safety stock, less what is on hand. */
  function OrderQty(item: InventoryItem, daysAhead: int): real {
    item.dailyUsageAvg * (daysAhead as real) + item.dailyUsageAvg * 1.5 - item.currentStock
  }

  function PriorityFor(item: InventoryItem, daysAhead: int): (p: Priority)
    ensures p == Critical <==> StockStatusOf(item) == OutOfStock
    ensures p == High <==> StockStatusOf(item) == StockStatus.Low
    ensures p == Medium <==>
      StockStatusOf(item) in {Overstocked, Normal} &&
      DaysRemaining(item).Some? && DaysRemaining(item).value < daysAhead as real
  {
    var s := StockStatusOf(item);
    if s == OutOfStock then Critical
    else if s == StockStatus.Low then High
    else if DaysRemaining(item).Some? && DaysRemaining(item).value < daysAhead as real then Medium
    else Priority.Low
  }

  function RoundDays(d: Option<real>): Option<real> {
    if d.Some? then Some(Round1(d.value)) else None
  }

  /**
   * The recommendation for one item: the order quantity is the shortfall,
   * but never less than the minimum stock, rounded to a tenth; it is not
   * negative (beyond rounding) for an item that needs a reorder.
   */
  function RecommendationFor(item: InventoryItem, daysAhead: int): (r: Recommendation)
    ensures r.itemUid == item.uid && r.priority == PriorityFor(item, daysAhead)
    ensures r.orderQuantity >= Round1(item.minStock)
    ensures r.orderQuantity >= Round1(OrderQty(item, daysAhead))
    ensures NeedsReorder(item, daysAhead) ==> r.orderQuantity > -0.05
  {
    var q := Max(OrderQty(item, daysAhead), item.minStock);
    Round1Monotone(item.minStock, q);
    Round1Monotone(OrderQty(item, daysAhead), q);
    Round1Error(q);
    Recommendation(item.name, item.uid, item.category, item.currentStock, item.unit,
                   Round1(item.dailyUsageAvg * (daysAhead as real)), Round1(q), Round2(q * item.unitCost),
                   PriorityFor(item, daysAhead), RoundDays(DaysRemaining(item)), item.supplierUid)
  }

  predicate NeedsReorder(item: InventoryItem, daysAhead: int) {
    OrderQty(item, daysAhead) > 0.0
  }

  /** The recommendations in inventory order, before ranking. */
  function Candidates(inv: seq<InventoryItem>, daysAhead: int): seq<Recommendation> {
    if |inv| == 0 then []
    else Candidates(inv[..|inv| - 1], daysAhead)
         + (if NeedsReorder(inv[|inv| - 1], daysAhead) then [RecommendationFor(inv[|inv| - 1], daysAhead)] else [])
  }

  method GenerateReorderRecommendations(inv: seq<InventoryItem>, daysAhead: int) returns (recs: seq<Recommendation>)
    ensures recs == Sorting.SortBy(Candidates(inv, daysAhead), RankOf)
  {
    var raw: seq<Recommendation> := [];
    var i := 0;
    while i < |inv|
      invariant 0 <= i <= |inv|
      invariant raw == Candidates(inv[..i], daysAhead)
    {
      assert inv[..i + 1][..i] == inv[..i];
      var item := inv[i];
      var orderQty := OrderQty(item, daysAhead);
      if orderQty > 0.0 {
        raw := raw + [RecommendationFor(item, daysAhead)];
      }
      i := i + 1;
    }
    assert inv[..|inv|] == inv;
    recs := Sorting.SortBy(raw, RankOf);
  }

  /** A recommendation is made exactly for the items whose order quantity is positive. */
  lemma {:induction false} CandidatesExactly(inv: seq<InventoryItem>, daysAhead: int)
    ensures forall r :: r in Candidates(inv, daysAhead) <==>
      exists i :: 0 <= i < |inv| && NeedsReorder(inv[i], daysAhead) && r == RecommendationFor(inv[i], daysAhead)
    ensures |Candidates(inv, daysAhead)| <= |inv|
  {
    if |inv| > 0 {
      var p := inv[..|inv| - 1];
      CandidatesExactly(p, daysAhead);
      forall r ensures r in Candidates(inv, daysAhead) <==>
        exists i :: 0 <= i < |inv| && NeedsReorder(inv[i], daysAhead) && r == RecommendationFor(inv[i], daysAhead)
      {
        if r in Candidates(p, daysAhead) {
          var i :| 0 <= i < |p| && NeedsReorder(p[i], daysAhead) && r == RecommendationFor(p[i], daysAhead);
          assert inv[i] == p[i];
        }
        if exists i :: 0 <= i < |inv| && NeedsReorder(inv[i], daysAhead) && r == RecommendationFor(inv[i], daysAhead) {
          var i :| 0 <= i < |inv| && NeedsReorder(inv[i], daysAhead) && r == RecommendationFor(inv[i], daysAhead);
          if i < |p| {
            assert p[i] == inv[i];
          }
        }
      }
    }
  }

  /**
   * The recommendations are a permutation of the candidates ordered
   * critical, high, medium, low, with items of equal priority in inventory order.
   */
  lemma ReorderRanking(inv: seq<InventoryItem>, daysAhead: int)
    ensures var recs := Sorting.SortBy(Candidates(inv, daysAhead), RankOf);
      && multiset(recs) == multiset(Candidates(inv, daysAhead))
      && (forall i, j :: 0 <= i < j < |recs| ==> PriorityRank(recs[i].priority) <= PriorityRank(recs[j].priority))
      && (forall k :: Sorting.WithKey(recs, RankOf, k) == Sorting.WithKey(Candidates(inv, daysAhead), RankOf, k))
  {
    Sorting.SortByCorrect(Candidates(inv, daysAhead), RankOf);
  }

  // ---------------------------------------------------------------------
  // generate_procurement_draft

  predicate Urgent(r: Recommendation) {
    r.priority != Priority.Low
  }

  predicate Eligible(s: Supplier, cat: IngredientCategory) {
    cat in s.categories && s.isActive
  }

  /** Weighted reliability, fill rate and speed (lead times under half a day count as half a day). */
  function SupplierScore(s: Supplier): real {
    s.reliabilityScore * 0.5 + s.avgFillRate * 0.3 + (1.0 / Max(s.leadTimeDays, 0.5)) * 0.2
  }

  /** The score to beat: -1 before any supplier has been chosen. */
  function ScoreOf(best: Option<Supplier>): real {
    if best.Some? then SupplierScore(best.value) else -1.0
  }

  /** The supplier chosen among suppliers for a category: a strict improvement replaces the best. */
  function BestOf(suppliers: seq<Supplier>, cat: IngredientCategory): (b: Option<Supplier>)
    ensures b.Some? ==> b.value in suppliers && Eligible(b.value, cat) && SupplierScore(b.value) > -1.0
  {
    if |suppliers| == 0 then None
    else
      var prev := BestOf(suppliers[..|suppliers| - 1], cat);
      var s := suppliers[|suppliers| - 1];
      if Eligible(s, cat) && SupplierScore(s) > ScoreOf(prev) then Some(s) else prev
  }

  method BestSupplier(suppliers: seq<Supplier>, cat: IngredientCategory) returns (best: Option<Supplier>)
    ensures best == BestOf(suppliers, cat)
  {
    best := None;
    var bestScore := -1.0;
    var i := 0;
    while i < |suppliers|
      invariant 0 <= i <= |suppliers|
      invariant best == BestOf(suppliers[..i], cat)
      invariant bestScore == ScoreOf(best)
    {
      assert suppliers[..i + 1][..i] == suppliers[..i];
      var s := suppliers[i];
      if cat in s.categories && s.isActive {
        var score := SupplierScore(s);
        if score > bestScore {
          bestScore := score;
          best := Some(s);
        }
      }
      i := i + 1;
    }
    assert suppliers[..|suppliers|] == suppliers;
  }

  /**
   * The chosen supplier is eligible, scores above -1 and at least as high as
   * every eligible supplier, and no eligible supplier before it scores as
   * high; there is none exactly when no eligible supplier scores above -1.
   */
  lemma {:induction false} BestOfCorrect(suppliers: seq<Supplier>, cat: IngredientCategory)
    ensures BestOf(suppliers, cat).None? <==>
      forall i :: 0 <= i < |suppliers| ==> !(Eligible(suppliers[i], cat) && SupplierScore(suppliers[i]) > -1.0)
    ensures BestOf(suppliers, cat).Some? ==>
      var b := BestOf(suppliers, cat).value;
      && SupplierScore(b) > -1.0
      && (forall i :: 0 <= i < |suppliers| && Eligible(suppliers[i], cat) ==> SupplierScore(suppliers[i]) <= SupplierScore(b))
      && exists j :: 0 <= j < |suppliers| && suppliers[j] == b && Eligible(b, cat)
           && forall i :: 0 <= i < j && Eligible(suppliers[i], cat) ==> SupplierScore(suppliers[i]) < SupplierScore(b)
  {
    if |suppliers| > 0 {
      var p := suppliers[..|suppliers| - 1];
      var n := |suppliers| - 1;
      BestOfCorrect(p, cat);
      var prev := BestOf(p, cat);
      var s := suppliers[n];
      assert forall i :: 0 <= i < n ==> suppliers[i] == p[i];
      if Eligible(s, cat) && SupplierScore(s) > ScoreOf(prev) {
        if prev.Some? {
          var j :| 0 <= j < |p| && p[j] == prev.value && Eligible(prev.value, cat)
                   && forall i :: 0 <= i < j && Eligible(p[i], cat) ==> SupplierScore(p[i]) < SupplierScore(prev.value);
        }
        assert suppliers[n] == s;
      } else if prev.Some? {
        var j :| 0 <= j < |p| && p[j] == prev.value && Eligible(prev.value, cat)
                 && forall i :: 0 <= i < j && Eligible(p[i], cat) ==> SupplierScore(p[i]) < SupplierScore(prev.value);
        assert suppliers[j] == prev.value;
      }
    }
  }

  /** Recommendations grouped under the uid of their chosen supplier. */
  datatype Group = Group(uid: string, supplier: Supplier, items: seq<Recommendation>)

  /** Index of the first group with the given uid. */
  function FindGroup(gs: seq<Group>, uid: string): (r: Option<nat>)
    ensures r.Some? ==> r.value < |gs| && gs[r.value].uid == uid
    ensures r.None? ==> forall k :: 0 <= k < |gs| ==> gs[k].uid != uid
  {
    if |gs| == 0 then None
    else if gs[0].uid == uid then Some(0)
    else
      var t := FindGroup(gs[1..], uid);
      if t.Some? then Some(t.value + 1) else None
  }

  /** Add rec to its supplier's group, opening a group (keeping this supplier record) on first use. */
  function AddToGroups(gs: seq<Group>, s: Supplier, rec: Recommendation): seq<Group> {
    var k := FindGroup(gs, s.uid);
    if k.Some? then gs[k.value := gs[k.value].(items := gs[k.value].items + [rec])]
    else gs + [Group(s.uid, s, [rec])]
  }

  /** A recommendation enters a draft when it is urgent and some supplier is chosen for it. */
  predicate Routed(r: Recommendation, suppliers: seq<Supplier>) {
    Urgent(r) && BestOf(suppliers, r.category).Some?
  }

  function GroupsOf(recs: seq<Recommendation>, suppliers: seq<Supplier>): seq<Group> {
    if |recs| == 0 then []
    else
      var gs := GroupsOf(recs[..|recs| - 1], suppliers);
      var r := recs[|recs| - 1];
      if Routed(r, suppliers) then AddToGroups(gs, BestOf(suppliers, r.category).value, r) else gs
  }

  function LineFor(r: Recommendation): OrderLine {
    OrderLine(r.itemName, r.orderQuantity, r.unit,
              if r.orderQuantity > 0.0 then r.estimatedCost / r.orderQuantity else 0.0,
              r.estimatedCost)
  }

  function Lines(items: seq<Recommendation>): (ls: seq<OrderLine>)
    ensures |ls| == |items|
    ensures forall k :: 0 <= k < |items| ==> ls[k] == LineFor(items[k])
  {
    if |items| == 0 then [] else Lines(items[..|items| - 1]) + [LineFor(items[|items| - 1])]
  }

  function EstimatedTotal(items: seq<Recommendation>): real {
    if |items| == 0 then 0.0 else EstimatedTotal(items[..|items| - 1]) + items[|items| - 1].estimatedCost
  }

  function OrderFor(g: Group, now: real): ProcurementOrder {
    ProcurementOrder(g.uid, Lines(g.items), Round2(EstimatedTotal(g.items)),
                     Some(now + g.supplier.leadTimeDays), Draft, true)
  }

  /** First pass of generate_procurement_draft: route each urgent recommendation to its best supplier. */
  method GroupBySupplier(recs: seq<Recommendation>, suppliers: seq<Supplier>) returns (groups: seq<Group>)
    ensures groups == GroupsOf(recs, suppliers)
  {
    groups := [];
    var i := 0;
    while i < |recs|
      invariant 0 <= i <= |recs|
      invariant groups == GroupsOf(recs[..i], suppliers)
    {
      assert recs[..i + 1][..i] == recs[..i];
      var rec := recs[i];
      if rec.priority in {Critical, High, Medium} {
        var best := BestSupplier(suppliers, rec.category);
        if best.Some? {
          var k := FindGroup(groups, best.value.uid);
          ghost var before := groups;
          if k.None? {
            groups := groups + [Group(best.value.uid, best.value, [])];
            k := Some(|groups| - 1);
            assert groups[k.value].items + [rec] == [rec];
            groups := groups[k.value := groups[k.value].(items := groups[k.value].items + [rec])];
            assert groups == before + [Group(best.value.uid, best.value, [rec])];
          } else {
            groups := groups[k.value := groups[k.value].(items := groups[k.value].items + [rec])];
          }
        }
      }
      i := i + 1;
    }
    assert recs[..|recs|] == recs;
  }

  /** Second pass, for one supplier: the order lines and their rounded total. */
  method BuildOrder(g: Group, now: real) returns (order: ProcurementOrder)
    ensures order == OrderFor(g, now)
  {
    var items := g.items;
    var lines: seq<OrderLine> := [];
    var totalValue := 0.0;
    var j := 0;
    while j < |items|
      invariant 0 <= j <= |items|
      invariant lines == Lines(items[..j])
      invariant totalValue == EstimatedTotal(items[..j])
    {
      assert items[..j + 1][..j] == items[..j];
      lines := lines + [LineFor(items[j])];
      totalValue := totalValue + items[j].estimatedCost;
      j := j + 1;
    }
    assert items[..|items|] == items;
    order := ProcurementOrder(g.uid, lines, Round2(totalValue), Some(now + g.supplier.leadTimeDays), Draft, true);
  }

  method GenerateProcurementDraft(recs: seq<Recommendation>, suppliers: seq<Supplier>, now: real)
    returns (orders: seq<ProcurementOrder>)
    ensures |orders| == |GroupsOf(recs, suppliers)|
    ensures forall k :: 0 <= k < |orders| ==> orders[k] == OrderFor(GroupsOf(recs, suppliers)[k], now)
  {
    var groups := GroupBySupplier(recs, suppliers);
    orders := [];
    var g := 0;
    while g < |groups|
      invariant 0 <= g <= |groups|
      invariant |orders| == g
      invariant forall k :: 0 <= k < g ==> orders[k] == OrderFor(groups[k], now)
    {
      var order := BuildOrder(groups[g], now);
      orders := orders + [order];
      g := g + 1;
    }
  }

  /** Recommendations that enter some draft. */
  function RoutedRecs(recs: seq<Recommendation>, suppliers: seq<Supplier>): seq<Recommendation> {
    if |recs| == 0 then []
    else RoutedRecs(recs[..|recs| - 1], suppliers)
         + (if Routed(recs[|recs| - 1], suppliers) then [recs[|recs| - 1]] else [])
  }

  /** The recommendations held by the groups, group after group. */
  function AllItems(gs: seq<Group>): seq<Recommendation> {
    if |gs| == 0 then [] else AllItems(gs[..|gs| - 1]) + gs[|gs| - 1].items
  }

  lemma {:induction false} AllItemsAppend(gs: seq<Group>, g: Group)
    ensures AllItems(gs + [g]) == AllItems(gs) + g.items
  {
    assert (gs + [g])[..|gs + [g]| - 1] == gs;
  }

  /** Appending r to group k adds r once to the grouped recommendations. */
  lemma {:induction false} AllItemsAppendAt(gs: seq<Group>, k: nat, r: Recommendation)
    requires k < |gs|
    ensures multiset(AllItems(gs[k := gs[k].(items := gs[k].items + [r])])) == multiset(AllItems(gs)) + multiset{r}
  {
    var n := |gs| - 1;
    var gs' := gs[k := gs[k].(items := gs[k].items + [r])];
    assert AllItems(gs') == AllItems(gs'[..n]) + gs'[n].items;
    assert AllItems(gs) == AllItems(gs[..n]) + gs[n].items;
    if k == n {
      assert gs'[..n] == gs[..n];
      assert gs'[n].items == gs[n].items + [r];
    } else {
      assert gs'[..n] == gs[..n][k := gs[k].(items := gs[k].items + [r])];
      AllItemsAppendAt(gs[..n], k, r);
      assert gs'[n] == gs[n];
    }
  }

  ghost predicate UidsDistinct(gs: seq<Group>) {
    forall a, b :: 0 <= a < b < |gs| ==> gs[a].uid != gs[b].uid
  }

  ghost predicate GroupsHeaded(gs: seq<Group>) {
    forall a :: 0 <= a < |gs| ==> gs[a].supplier.uid == gs[a].uid && |gs[a].items| > 0
  }

  ghost predicate ItemsRouted(gs: seq<Group>, suppliers: seq<Supplier>) {
    forall a, x :: 0 <= a < |gs| && 0 <= x < |gs[a].items| ==>
      Routed(gs[a].items[x], suppliers) && BestOf(suppliers, gs[a].items[x].category).value.uid == gs[a].uid
  }

  /** Distinct supplier uids, non-empty groups, and every item routed to its group's supplier. */
  ghost predicate GroupsWellFormed(gs: seq<Group>, suppliers: seq<Supplier>) {
    UidsDistinct(gs) && GroupsHeaded(gs) && ItemsRouted(gs, suppliers)
  }

  lemma AppendAtWellFormed(gs: seq<Group>, suppliers: seq<Supplier>, k: nat, r: Recommendation)
    requires GroupsWellFormed(gs, suppliers) && k < |gs|
    requires Routed(r, suppliers) && BestOf(suppliers, r.category).value.uid == gs[k].uid
    ensures GroupsWellFormed(gs[k := gs[k].(items := gs[k].items + [r])], suppliers)
  {
    var gs' := gs[k := gs[k].(items := gs[k].items + [r])];
    assert forall a :: 0 <= a < |gs| ==> gs'[a].uid == gs[a].uid && gs'[a].supplier == gs[a].supplier;
    assert UidsDistinct(gs');
    assert GroupsHeaded(gs');
    forall a, x | 0 <= a < |gs'| && 0 <= x < |gs'[a].items|
      ensures Routed(gs'[a].items[x], suppliers) && BestOf(suppliers, gs'[a].items[x].category).value.uid == gs'[a].uid
    {
      if a == k && x == |gs[a].items| {
        assert gs'[a].items[x] == r;
      } else {
        assert gs'[a].items[x] == gs[a].items[x];
      }
    }
  }

  lemma NewGroupWellFormed(gs: seq<Group>, suppliers: seq<Supplier>, r: Recommendation)
    requires GroupsWellFormed(gs, suppliers)
    requires Routed(r, suppliers)
    requires FindGroup(gs, BestOf(suppliers, r.category).value.uid).None?
    ensures GroupsWellFormed(gs + [Group(BestOf(suppliers, r.category).value.uid, BestOf(suppliers, r.category).value, [r])], suppliers)
  {
    var s := BestOf(suppliers, r.category).value;
    var gs' := gs + [Group(s.uid, s, [r])];
    assert forall a :: 0 <= a < |gs| ==> gs'[a] == gs[a];
    assert UidsDistinct(gs');
    assert GroupsHeaded(gs');
    assert ItemsRouted(gs', suppliers);
  }

  lemma AddToGroupsWellFormed(gs: seq<Group>, suppliers: seq<Supplier>, r: Recommendation)
    requires GroupsWellFormed(gs, suppliers)
    requires Routed(r, suppliers)
    ensures GroupsWellFormed(AddToGroups(gs, BestOf(suppliers, r.category).value, r), suppliers)
    ensures multiset(AllItems(AddToGroups(gs, BestOf(suppliers, r.category).value, r)))
            == multiset(AllItems(gs)) + multiset{r}
  {
    var s := BestOf(suppliers, r.category).value;
    var k := FindGroup(gs, s.uid);
    if k.Some? {
      AllItemsAppendAt(gs, k.value, r);
      AppendAtWellFormed(gs, suppliers, k.value, r);
    } else {
      AllItemsAppend(gs, Group(s.uid, s, [r]));
      NewGroupWellFormed(gs, suppliers, r);
    }
  }

  /**
   * The draft groups have distinct suppliers, each holds only recommendations
   * routed to it, and together they hold every routed recommendation exactly once.
   */
  lemma {:induction false} GroupsOfCorrect(recs: seq<Recommendation>, suppliers: seq<Supplier>)
    ensures GroupsWellFormed(GroupsOf(recs, suppliers), suppliers)
    ensures multiset(AllItems(GroupsOf(recs, suppliers))) == multiset(RoutedRecs(recs, suppliers))
  {
    if |recs| > 0 {
      var p := recs[..|recs| - 1];
      var r := recs[|recs| - 1];
      GroupsOfCorrect(p, suppliers);
      if Routed(r, suppliers) {
        AddToGroupsWellFormed(GroupsOf(p, suppliers), suppliers, r);
      }
    }
  }

  /**
   * Each draft is a draft, auto-generated, addressed to a distinct supplier,
   * holds one line per recommendation routed to that supplier, and totals its
   * lines' estimated costs rounded to cents; every routed recommendation lands
   * in exactly one draft.
   */
  lemma ProcurementDraftFacts(recs: seq<Recommendation>, suppliers: seq<Supplier>, now: real)
    ensures var gs := GroupsOf(recs, suppliers);
      && (forall k :: 0 <= k < |gs| ==>
            OrderFor(gs[k], now).status == Draft && OrderFor(gs[k], now).autoGenerated
            && OrderFor(gs[k], now).totalValue == Round2(EstimatedTotal(gs[k].items))
            && |OrderFor(gs[k], now).items| == |gs[k].items|
            && (forall x :: 0 <= x < |gs[k].items| ==>
                  Routed(gs[k].items[x], suppliers)
                  && BestOf(suppliers, gs[k].items[x].category).value.uid == OrderFor(gs[k], now).supplierUid))
      && (forall a, b :: 0 <= a < b < |gs| ==> OrderFor(gs[a], now).supplierUid != OrderFor(gs[b], now).supplierUid)
      && multiset(AllItems(gs)) == multiset(RoutedRecs(recs, suppliers))
  {
    GroupsOfCorrect(recs, suppliers);
  }

  // ---------------------------------------------------------------------
  // calculate_waste_metrics

  datatype WasteRow = WasteRow(name: string, wastagePct: real, wasteCost: real, category: IngredientCategory)

  datatype WasteMetrics = WasteMetrics(
    totalWasteCostMonthly: real,
    avgWastagePct: real,
    highWasteItems: seq<WasteRow>,
    potentialSavings: real,
    wasteByCategory: map<IngredientCategory, real>)

  /** The value of the stock expected to be wasted. */
  function WasteCost(item: InventoryItem): real {
    item.currentStock * item.unitCost * (item.wastagePct / 100.0)
  }

  function TotalWasteCost(inv: seq<InventoryItem>): real {
    if |inv| == 0 then 0.0 else TotalWasteCost(inv[..|inv| - 1]) + WasteCost(inv[|inv| - 1])
  }

  function WasteRowFor(item: InventoryItem): WasteRow {
    WasteRow(item.name, item.wastagePct, Round2(WasteCost(item)), item.category)
  }

  /** Rows for the items with wastage above 8%, in inventory order. */
  function HighWasteRows(inv: seq<InventoryItem>): seq<WasteRow> {
    if |inv| == 0 then []
    else HighWasteRows(inv[..|inv| - 1])
         + (if inv[|inv| - 1].wastagePct > 8.0 then [WasteRowFor(inv[|inv| - 1])] else [])
  }

  function WasteCostKey(r: WasteRow): real {
    r.wasteCost
  }

  /** The second pass of calculate_waste_metrics: mean wastage per category present. */
  method WasteByCategory(inv: seq<InventoryItem>) returns (byCategory: map<IngredientCategory, real>)
    ensures forall c :: c in byCategory <==> CatCount(inv, c) > 0
    ensures forall c :: c in byCategory ==> byCategory[c] == Round1(CatWaste(inv, c) / (CatCount(inv, c) as real))
  {
    var catWaste: map<IngredientCategory, real> := map[];
    var catCount: map<IngredientCategory, nat> := map[];
    var i := 0;
    while i < |inv|
      invariant 0 <= i <= |inv|
      invariant forall c :: c in catWaste <==> CatCount(inv[..i], c) > 0
      invariant forall c :: c in catCount <==> CatCount(inv[..i], c) > 0
      invariant forall c :: c in catWaste ==> catWaste[c] == CatWaste(inv[..i], c)
      invariant forall c :: c in catCount ==> catCount[c] == CatCount(inv[..i], c)
    {
      assert inv[..i + 1][..i] == inv[..i];
      var c := inv[i].category;
      CategoryStep(inv, i);
      if c !in catWaste {
        CatCountZero(inv[..i], c);
      }
      catWaste := catWaste[c := (if c in catWaste then catWaste[c] else 0.0) + inv[i].wastagePct];
      catCount := catCount[c := (if c in catCount then catCount[c] else 0) + 1];
      i := i + 1;
    }
    assert inv[..|inv|] == inv;
    byCategory := map c | c in catWaste :: Round1(catWaste[c] / (catCount[c] as real));
  }

  method CalculateWasteMetrics(inv: seq<InventoryItem>) returns (r: Option<WasteMetrics>)
    ensures r.None? <==> |inv| == 0
    ensures r.Some? ==>
      && r.value.totalWasteCostMonthly == Round2(TotalWasteCost(inv) * 4.0)
      && r.value.potentialSavings == Round2(TotalWasteCost(inv) * 4.0 * 0.4)
      && r.value.avgWastagePct == Round1(TotalWastage(inv) / (|inv| as real))
      && r.value.highWasteItems == Sorting.SortByDesc(HighWasteRows(inv), WasteCostKey)
      && (forall c :: c in r.value.wasteByCategory <==> CatCount(inv, c) > 0)
      && (forall c :: c in r.value.wasteByCategory ==>
            r.value.wasteByCategory[c] == Round1(CatWaste(inv, c) / (CatCount(inv, c) as real)))
  {
    if |inv| == 0 {
      return None;
    }
    var total := 0.0;
    var high: seq<WasteRow> := [];
    var i := 0;
    while i < |inv|
      invariant 0 <= i <= |inv|
      invariant total == TotalWasteCost(inv[..i])
      invariant high == HighWasteRows(inv[..i])
    {
      assert inv[..i + 1][..i] == inv[..i];
      var item := inv[i];
      var wasteCost := WasteCost(item);
      total := total + wasteCost;
      if item.wastagePct > 8.0 {
        high := high + [WasteRow(item.name, item.wastagePct, Round2(wasteCost), item.category)];
      }
      i := i + 1;
    }
    assert inv[..|inv|] == inv;
    high := Sorting.SortByDesc(high, WasteCostKey);
    var byCategory := WasteByCategory(inv);
    r := Some(WasteMetrics(Round2(total * 4.0), Round1(TotalWastage(inv) / (|inv| as real)), high,
                           Round2(total * 4.0 * 0.4), byCategory));
  }

  /** The high-waste rows are as many as the analysis's high-waste count, one per item above 8%. */
  lemma {:induction false} HighWasteRowsCount(inv: seq<InventoryItem>)
    ensures |HighWasteRows(inv)| == WasteAboveCount(inv, 8.0)
    ensures forall k :: 0 <= k < |HighWasteRows(inv)| ==> HighWasteRows(inv)[k].wastagePct > 8.0
  {
    if |inv| > 0 {
      HighWasteRowsCount(inv[..|inv| - 1]);
    }
  }

  /**
   * The reported high-waste rows are the items above 8% wastage, ordered by
   * rounded waste cost from the highest down; with non-negative waste costs
   * the savings estimate never exceeds the monthly waste cost.
   */
  lemma WasteMetricsFacts(inv: seq<InventoryItem>)
    ensures var rows := Sorting.SortByDesc(HighWasteRows(inv), WasteCostKey);
      && |rows| == WasteAboveCount(inv, 8.0)
      && multiset(rows) == multiset(HighWasteRows(inv))
      && (forall i, j :: 0 <= i < j < |rows| ==> rows[i].wasteCost >= rows[j].wasteCost)
    ensures TotalWasteCost(inv) >= 0.0 ==>
      0.0 <= Round2(TotalWasteCost(inv) * 4.0 * 0.4) <= Round2(TotalWasteCost(inv) * 4.0)
  {
    WasteRowsOrdered(HighWasteRows(inv));
    HighWasteRowsCount(inv);
    SavingsBound(TotalWasteCost(inv));
  }

  /** Sorting waste rows by waste cost, highest first, permutes them into that order. */
  lemma WasteRowsOrdered(high: seq<WasteRow>)
    ensures var rows := Sorting.SortByDesc(high, WasteCostKey);
      && |rows| == |high|
      && multiset(rows) == multiset(high)
      && (forall i, j :: 0 <= i < j < |rows| ==> rows[i].wasteCost >= rows[j].wasteCost)
  {
    Sorting.SortByDescCorrect(high, WasteCostKey);
    var rows := Sorting.SortByDesc(high, WasteCostKey);
    forall i, j | 0 <= i < j < |rows| ensures rows[i].wasteCost >= rows[j].wasteCost {
      assert WasteCostKey(rows[i]) >= WasteCostKey(rows[j]);
    }
  }

  /** The savings estimate, 40% of the monthly waste cost, lies between 0 and that cost. */
  lemma SavingsBound(t: real)
    ensures t >= 0.0 ==> 0.0 <= Round2(t * 4.0 * 0.4) <= Round2(t * 4.0)
  {
    if t >= 0.0 {
      Round2Monotone(t * 4.0 * 0.4, t * 4.0);
      Round2Nonnegative(t * 4.0 * 0.4);
    }
  }
}
