/**
 * The domain records of the restaurant platform (models/core.py): inventory
 * items with their stock classification and days of cover, menu items with
 * their derived food-cost percentage, suppliers, procurement orders and the
 * demand-forecast result record.
 */
module Core {
  import opened Common

  datatype IngredientCategory =
    Protein | Dairy | Produce | Grains | Spices | Beverages | Oils | Frozen | DryGoods | Packaging

  datatype StockStatus = OutOfStock | Low | Overstocked | Normal

  datatype InventoryItem = InventoryItem(
    uid: string,
    name: string,
    category: IngredientCategory,
    unit: string,
    currentStock: real,
    minStock: real,
    maxStock: real,
    reorderPoint: real,
    unitCost: real,
    supplierUid: Option<string>,
    dailyUsageAvg: real,
    wastagePct: real)

  /**
   * The stock classification. The tests run in a fixed order, so a
   * non-positive stock is out of stock whatever the thresholds, and the
   * overstock test only applies above the reorder point.
   */
  function StockStatusOf(item: InventoryItem): (r: StockStatus)
    ensures r == OutOfStock <==> item.currentStock <= 0.0
    ensures r == Low <==> 0.0 < item.currentStock <= item.reorderPoint
    ensures r == Overstocked <==>
      0.0 < item.currentStock && item.reorderPoint < item.currentStock && item.currentStock >= item.maxStock * 0.9
    ensures r == Normal <==>
      0.0 < item.currentStock && item.reorderPoint < item.currentStock < item.maxStock * 0.9
    ensures item.currentStock <= 0.0 ==> r != Low && r != Overstocked
  {
    if item.currentStock <= 0.0 then OutOfStock
    else if item.currentStock <= item.reorderPoint then Low
    else if item.currentStock >= item.maxStock * 0.9 then Overstocked
    else Normal
  }

  /** Days of stock left at the average daily usage; None stands for infinity (no usage). */
  function DaysRemaining(item: InventoryItem): (r: Option<real>)
    ensures r.None? <==> item.dailyUsageAvg <= 0.0
    ensures r.Some? ==> r.value * item.dailyUsageAvg == item.currentStock
    ensures r.Some? && item.currentStock >= 0.0 ==> r.value >= 0.0
  {
    if item.dailyUsageAvg > 0.0 then Some(item.currentStock / item.dailyUsageAvg) else None
  }

  datatype MenuItem = MenuItem(
    uid: string,
    name: string,
    category: string,
    price: real,
    cost: real,
    prepTimeMinutes: int,
    isActive: bool,
    popularityScore: real,
    avgDailyOrders: real,
    foodCostPct: real)

  /**
   * Constructing a menu item: with a positive price the food-cost percentage
   * is derived from cost and price, otherwise the given value (default 0) is kept.
   */
  function NewMenuItem(uid: string, name: string, category: string, price: real, cost: real,
                       prepTimeMinutes: int, isActive: bool, popularityScore: real,
                       avgDailyOrders: real, foodCostPct: real): (m: MenuItem)
    ensures m.price > 0.0 ==> m.foodCostPct * m.price == m.cost * 100.0
    ensures m.price <= 0.0 ==> m.foodCostPct == foodCostPct
    ensures m.uid == uid && m.name == name && m.category == category
    ensures m.price == price && m.cost == cost && m.prepTimeMinutes == prepTimeMinutes
    ensures m.isActive == isActive && m.popularityScore == popularityScore
    ensures m.avgDailyOrders == avgDailyOrders
  {
    MenuItem(uid, name, category, price, cost, prepTimeMinutes, isActive, popularityScore,
             avgDailyOrders, if price > 0.0 then (cost / price) * 100.0 else foodCostPct)
  }

  datatype Supplier = Supplier(
    uid: string,
    name: string,
    categories: seq<IngredientCategory>,
    leadTimeDays: real,
    reliabilityScore: real,
    avgFillRate: real,
    isActive: bool)

  datatype ProcurementStatus = Draft | Submitted | Confirmed | Delivered | Cancelled

  datatype OrderLine = OrderLine(itemName: string, quantity: real, unit: string, unitCost: real, total: real)

  /** A purchase order; times are in days since the epoch. */
  datatype ProcurementOrder = ProcurementOrder(
    supplierUid: string,
    items: seq<OrderLine>,
    totalValue: real,
    expectedDelivery: Option<real>,
    status: ProcurementStatus,
    autoGenerated: bool)

  /** The per-channel split of a forecast day. */
  datatype ChannelBreakdown = ChannelBreakdown(dineIn: int, delivery: int, takeaway: int)

  /** One forecast day; the date is a day number since 1970-01-01. */
  datatype DemandForecast = DemandForecast(
    forecastDate: int,
    predictedCovers: int,
    predictedRevenue: real,
    confidenceLower: int,
    confidenceUpper: int,
    dayOfWeek: string,
    channelBreakdown: ChannelBreakdown)
}
