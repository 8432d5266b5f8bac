/**
 * The demand forecast engine of forecasting/demand_engine.py: an object that
 * is trained on daily summaries and then answers forecasts, per-item
 * forecasts, insights and a model summary. The engine's fields are updated
 * in place by training; the arithmetic lives in ForecastModel.
 */
module Forecast {
  import opened Common
  import opened Daily
  import opened Core
  import opened Grouping
  import opened ForecastModel

  /** The exceptions the engine raises. */
  datatype EngineError = NoHistoricalData | DivisionByZero | NotTrained

  /** The keys of ks appended, in order, to xs when not already present: dict key order after an update. */
  function AppendNew(xs: seq<nat>, ks: seq<nat>): seq<nat> {
    if |ks| == 0 then xs
    else
      var r := AppendNew(xs, ks[..|ks| - 1]);
      if ks[|ks| - 1] in r then r else r + [ks[|ks| - 1]]
  }

  lemma {:induction false} AppendNewCorrect(xs: seq<nat>, ks: seq<nat>)
    requires Distinct(xs)
    ensures Distinct(AppendNew(xs, ks))
    ensures forall k :: k in AppendNew(xs, ks) <==> k in xs || k in ks
    ensures |AppendNew(xs, ks)| >= |xs| && AppendNew(xs, ks)[..|xs|] == xs
  {
    if |ks| > 0 {
      var p := ks[..|ks| - 1];
      AppendNewCorrect(xs, p);
      assert forall k :: k in ks <==> k in p || k == ks[|ks| - 1] by {
        assert ks == p + [ks[|ks| - 1]];
      }
      var r := AppendNew(xs, p);
      if ks[|ks| - 1] !in r {
        assert (r + [ks[|ks| - 1]])[..|xs|] == r[..|xs|];
      }
    }
  }

  lemma WeekdayKeysInRange(data: seq<DailySummary>)
    ensures forall k :: k in KeySet(data, WeekdayOfRow) ==> 0 <= k < 7
  {
    forall k | k in KeySet(data, WeekdayOfRow) ensures 0 <= k < 7 {
      var i :| 0 <= i < |data| && WeekdayOfRow(data[i]) == k;
      assert k == Weekday(data[i].date);
    }
  }

  /** for dow, values in groups.items(): patterns[dow] = mean(values) / base */
  method MergePatterns(pats: map<nat, real>, porder: seq<nat>, groups: map<nat, seq<real>>, order: seq<nat>, base: real)
    returns (pats': map<nat, real>, porder': seq<nat>)
    requires base != 0.0
    requires forall k :: k in order <==> k in groups
    ensures pats' == pats + map k | k in groups :: Mean(groups[k]) / base
    ensures porder' == AppendNew(porder, order)
  {
    pats', porder' := pats, porder;
    var i := 0;
    while i < |order|
      invariant 0 <= i <= |order|
      invariant forall k :: k in pats' <==> k in pats || k in order[..i]
      invariant forall k :: k in pats' ==> pats'[k] == if k in order[..i] then Mean(groups[k]) / base else pats[k]
      invariant porder' == AppendNew(porder, order[..i])
    {
      var k := order[i];
      assert order[..i + 1] == order[..i] + [k];
      pats' := pats'[k := Mean(groups[k]) / base];
      if k !in porder' {
        porder' := porder' + [k];
      }
      i := i + 1;
    }
    assert order[..|order|] == order;
    var merged := pats + map k | k in groups :: Mean(groups[k]) / base;
    assert forall k :: k in pats' <==> k in merged;
    assert pats' == merged;
  }

  /** One grouping loop of train() and its ratio loop, merged into the existing patterns. */
  method PatternsFrom(data: seq<DailySummary>, key: DailySummary -> nat, pats: map<nat, real>, porder: seq<nat>, base: real)
    returns (pats': map<nat, real>, porder': seq<nat>)
    requires base != 0.0
    ensures pats' == pats + PatternOf(data, key, base)
    ensures porder' == AppendNew(porder, KeyOrder(data, key))
  {
    var groups, order := GroupBy(data, key, CoversOf);
    assert (map k | k in groups :: Mean(groups[k]) / base) == PatternOf(data, key, base);
    pats', porder' := MergePatterns(pats, porder, groups, order, base);
  }

  /** The nested loop over days and their item_orders that collects quantities per (item, weekday). */
  method CollectItemTable(data: seq<DailySummary>) returns (table: map<string, map<nat, seq<real>>>)
    ensures table == CollectItems(ItemEntries(data))
  {
    table := map[];
    var i := 0;
    while i < |data|
      invariant 0 <= i <= |data|
      invariant table == CollectItems(ItemEntries(data[..i]))
    {
      var dow := Weekday(data[i].date);
      var items := data[i].itemOrders;
      assert data[..i + 1][..i] == data[..i];
      ghost var before := ItemEntries(data[..i]);
      assert before + RowEntries(items[..0], dow) == before;
      var j := 0;
      while j < |items|
        invariant 0 <= j <= |items|
        invariant table == CollectItems(before + RowEntries(items[..j], dow))
      {
        var e := ItemEntry(items[j].0, dow, items[j].1 as real);
        CollectItemsStep(before, items, dow, j);
        var row: map<nat, seq<real>> := if e.name in table then table[e.name] else map[];
        var values: seq<real> := if e.dow in row then row[e.dow] + [e.qty] else [e.qty];
        row := row[e.dow := values];
        table := table[e.name := row];
        j := j + 1;
      }
      assert items[..|items|] == items;
      assert ItemEntries(data[..i + 1]) == before + RowEntries(items, dow);
      i := i + 1;
    }
    assert data[..|data|] == data;
  }

  lemma CollectItemsStep(before: seq<ItemEntry>, items: seq<(string, int)>, dow: nat, j: nat)
    requires j < |items|
    ensures CollectItems(before + RowEntries(items[..j + 1], dow))
            == AddEntry(CollectItems(before + RowEntries(items[..j], dow)), ItemEntry(items[j].0, dow, items[j].1 as real))
  {
    var e := ItemEntry(items[j].0, dow, items[j].1 as real);
    assert items[..j + 1][..j] == items[..j];
    var x := before + RowEntries(items[..j], dow);
    assert before + RowEntries(items[..j + 1], dow) == x + [e];
    assert (x + [e])[..|x|] == x;
  }

  /** Replace every per-weekday list of quantities by its mean, item by item. */
  method AverageItemTable(table: map<string, map<nat, seq<real>>>) returns (avg: map<string, map<nat, real>>)
    ensures avg == ItemAverages(table)
  {
    avg := map[];
    var todo := table.Keys;
    while todo != {}
      invariant todo <= table.Keys
      invariant avg.Keys == table.Keys - todo
      invariant forall name :: name in avg ==> avg[name] == map dow | dow in table[name] :: Mean(table[name][dow])
      decreases |todo|
    {
      var name :| name in todo;
      var inner := AverageRow(table[name]);
      avg := avg[name := inner];
      todo := todo - {name};
    }
  }

  method AverageRow(row: map<nat, seq<real>>) returns (inner: map<nat, real>)
    ensures inner == map w | w in row :: Mean(row[w])
  {
    inner := map[];
    var todo := row.Keys;
    while todo != {}
      invariant todo <= row.Keys
      invariant inner.Keys == row.Keys - todo
      invariant forall w :: w in inner ==> inner[w] == Mean(row[w])
      decreases |todo|
    {
      var w :| w in todo;
      inner := inner[w := Mean(row[w])];
      todo := todo - {w};
    }
  }

  /** One entry of forecast_items: a date, its weekday name and the predicted quantity. */
  datatype ItemForecast = ItemForecast(date: int, dayOfWeek: string, predictedQuantity: int)

  function ItemForecastFor(dowPatterns: map<nat, real>, today: int, i: int, trendSlope: real, baseCovers: real): (f: ItemForecast)
    requires baseCovers != 0.0
    ensures f.date == today + i && f.predictedQuantity >= 0
  {
    ItemForecast(today + i, DayName(Weekday(today + i)),
                 ItemQuantity(dowPatterns, Weekday(today + i), trendSlope, baseCovers, i))
  }

  /** The inner loop of forecast_items for one item. */
  method ItemSeries(dowPatterns: map<nat, real>, today: int, daysAhead: int, trendSlope: real, baseCovers: real)
    returns (fs: seq<ItemForecast>)
    requires baseCovers != 0.0 || daysAhead <= 0
    ensures |fs| == IMax(0, daysAhead)
    ensures forall i :: 0 <= i < |fs| ==> fs[i] == ItemForecastFor(dowPatterns, today, i + 1, trendSlope, baseCovers)
  {
    fs := [];
    var i := 1;
    while i <= daysAhead
      invariant 1 <= i <= IMax(0, daysAhead) + 1
      invariant |fs| == i - 1
      invariant forall t :: 0 <= t < |fs| ==> fs[t] == ItemForecastFor(dowPatterns, today, t + 1, trendSlope, baseCovers)
    {
      fs := fs + [ItemForecastFor(dowPatterns, today, i, trendSlope, baseCovers)];
      i := i + 1;
    }
  }

  /** The loop of forecast_items(): one series per item of the table. */
  method ItemForecasts(items: map<string, map<nat, real>>, today: int, daysAhead: int, trendSlope: real, baseCovers: real)
    returns (out: map<string, seq<ItemForecast>>)
    requires baseCovers != 0.0 || daysAhead <= 0 || items == map[]
    ensures out.Keys == items.Keys
    ensures forall name :: name in out ==> |out[name]| == IMax(0, daysAhead)
    ensures forall name, i :: name in out && 0 <= i < |out[name]| ==>
              baseCovers != 0.0
              && out[name][i] == ItemForecastFor(items[name], today, i + 1, trendSlope, baseCovers)
  {
    out := map[];
    var todo := items.Keys;
    while todo != {}
      invariant todo <= items.Keys
      invariant out.Keys == items.Keys - todo
      invariant forall name :: name in out ==> |out[name]| == IMax(0, daysAhead)
      invariant forall name, i :: name in out && 0 <= i < |out[name]| ==>
                  baseCovers != 0.0
                  && out[name][i] == ItemForecastFor(items[name], today, i + 1, trendSlope, baseCovers)
      decreases |todo|
    {
      var name :| name in todo;
      assert baseCovers != 0.0 || daysAhead <= 0;
      var series := ItemSeries(items[name], today, daysAhead, trendSlope, baseCovers);
      out := out[name := series];
      todo := todo - {name};
    }
  }

  /** Training keeps the weekday patterns keyed by their insertion order, and non-empty. */
  lemma PatternsStayKeyed(pats: map<nat, real>, order: seq<nat>, data: seq<DailySummary>, base: real)
    requires PatternsKeyed(pats, order) && base != 0.0
    ensures PatternsKeyed(pats + PatternOf(data, WeekdayOfRow, base), AppendNew(order, KeyOrder(data, WeekdayOfRow)))
    ensures |data| > 0 ==> |AppendNew(order, KeyOrder(data, WeekdayOfRow))| > 0
  {
    AppendNewCorrect(order, KeyOrder(data, WeekdayOfRow));
    KeyOrderCorrect(data, WeekdayOfRow);
    WeekdayKeysInRange(data);
    if |data| > 0 {
      assert WeekdayOfRow(data[0]) in KeySet(data, WeekdayOfRow);
    }
  }

  /** _calculate_accuracy(): predicts every holdout row and scores the rows with positive covers. */
  method ComputeAccuracy(m: ModelParams, data: seq<DailySummary>) returns (acc: Option<AccuracyMetrics>)
    ensures acc == AccuracyOf(m, data)
  {
    var n := |data|;
    var holdout := data[IMin(HoldoutStart(n), n)..];
    var errors: seq<real> := [];
    var i := 0;
    while i < |holdout|
      invariant 0 <= i <= |holdout|
      invariant errors == HoldoutErrors(m, holdout[..i], n)
    {
      assert holdout[..i + 1][..i] == holdout[..i];
      errors := errors + HoldoutError(m, holdout[i], n);
      i := i + 1;
    }
    assert holdout[..|holdout|] == holdout;
    if |errors| > 0 {
      var mean := Sum(errors) / (|errors| as real);
      acc := Some(AccuracyMetrics(Round2(mean * 100.0), Round2((1.0 - mean) * 100.0), |holdout|, n));
    } else {
      acc := None;
    }
  }

  /** Everything train() derives from the history once the means are known. */
  method FitValues(data: seq<DailySummary>, pats: map<nat, real>, porder: seq<nat>, months0: map<nat, real>,
                   covers: real, check: real)
    returns (days: map<nat, real>, order: seq<nat>, months: map<nat, real>, slope: real,
             items: map<string, map<nat, real>>, acc: Option<AccuracyMetrics>)
    requires PatternsKeyed(pats, porder) && covers != 0.0 && |data| > 0
    ensures PatternsKeyed(days, order) && |order| > 0
    ensures days == pats + PatternOf(data, WeekdayOfRow, covers)
    ensures order == AppendNew(porder, KeyOrder(data, WeekdayOfRow))
    ensures months == months0 + PatternOf(data, MonthOfRow, covers)
    ensures slope == Slope(data)
    ensures items == ItemPatternsOf(data)
    ensures acc == AccuracyOf(ModelParams(days, months, slope, covers, check), data)
  {
    days, order := PatternsFrom(data, WeekdayOfRow, pats, porder, covers);
    var monthOrder;
    months, monthOrder := PatternsFrom(data, MonthOfRow, months0, [], covers);
    PatternsStayKeyed(pats, porder, data, covers);
    slope := Slope(data);
    var table := CollectItemTable(data);
    items := AverageItemTable(table);
    acc := ComputeAccuracy(ModelParams(days, months, slope, covers, check), data);
  }

  // ---------------------------------------------------------------------
  // Insights

  datatype InsightType = Demand | Labor | Growth | Risk | Channel | Waste
  datatype Impact = Critical | High | Medium

  /** One insight; figure is the number its description quotes, before formatting. */
  datatype Insight = Insight(kind: InsightType, title: string, figure: real, impact: Impact)

  /** day_patterns.get as a key function. */
  function PatternScore(pats: map<nat, real>): nat -> real {
    (k: nat) => Factor(pats, k)
  }

  predicate HasCovers(d: DailySummary) { d.totalCovers > 0 }

  function DeliveryRatio(d: DailySummary): real {
    if d.totalCovers > 0 then (d.delivery as real) / (d.totalCovers as real) else 0.0
  }

  /** The mean delivery share over the rows, counting rows without covers in the denominator only. */
  function DeliveryShare(recent: seq<DailySummary>): real
    requires |recent| > 0
  {
    SumOf(Filter(recent, HasCovers), DeliveryRatio) / (|recent| as real)
  }

  /** Mean waste over mean covers for the last 30 rows, both divided by 30 whatever the row count. */
  function WastePerCover(history: seq<DailySummary>): real {
    var window := LastN(history, 30);
    var avgWaste := SumOf(window, WasteOf) / 30.0;
    var avgCovers := SumOf(window, CoversOf) / 30.0;
    if avgCovers > 0.0 then avgWaste / avgCovers else 0.0
  }

  function TrendInsights(trendSlope: real, baseCovers: real): seq<Insight>
    requires baseCovers != 0.0 || trendSlope == 0.0
  {
    if trendSlope > 0.0 then
      [Insight(Growth, "Upward Demand Trend", (trendSlope * 7.0 / baseCovers) * 100.0, High)]
    else if trendSlope < 0.0 then
      [Insight(Risk, "Declining Demand Trend", Abs(trendSlope * 7.0 / baseCovers) * 100.0, Critical)]
    else []
  }

  function ChannelInsights(history: seq<DailySummary>): seq<Insight> {
    var recent := LastN(history, 14);
    if |recent| > 0 && DeliveryShare(recent) > 0.30 then
      [Insight(Channel, "Strong Delivery Channel", DeliveryShare(recent) * 100.0, Medium)]
    else []
  }

  function WasteInsights(history: seq<DailySummary>): seq<Insight> {
    if WastePerCover(history) > 0.10 then
      [Insight(Waste, "Food Waste Reduction Opportunity", WastePerCover(history) * 1000.0, High)]
    else []
  }

  /** The "day-pattern keys are weekday numbers listed once in dayOrder" part of the engine's invariant. */
  ghost predicate PatternsKeyed(pats: map<nat, real>, order: seq<nat>) {
    Distinct(order)
    && (forall k :: k in order <==> k in pats)
    && (forall k :: k in pats ==> 0 <= k < 7)
  }

  /** get_insights on a trained engine: peak and slowest day, then the trend, channel and waste insights that apply. */
  function InsightsFor(pats: map<nat, real>, order: seq<nat>, trendSlope: real, baseCovers: real,
                       history: seq<DailySummary>): (r: Result<seq<Insight>, EngineError>)
    requires PatternsKeyed(pats, order) && |order| > 0
    ensures r.Err? <==> trendSlope != 0.0 && baseCovers == 0.0
    ensures r.Err? ==> r.error == DivisionByZero
    ensures r.Ok? ==> 2 <= |r.value| <= 5 && r.value[0].kind == Demand && r.value[1].kind == Labor
  {
    if trendSlope != 0.0 && baseCovers == 0.0 then Err(DivisionByZero)
    else
      Ok(DayInsights(pats, order)
         + TrendInsights(trendSlope, baseCovers) + ChannelInsights(history) + WasteInsights(history))
  }

  /** The peak-day and slowest-day insights, ties going to the weekday trained first. */
  function DayInsights(pats: map<nat, real>, order: seq<nat>): (r: seq<Insight>)
    requires PatternsKeyed(pats, order) && |order| > 0
    ensures |r| == 2 && r[0].kind == Demand && r[1].kind == Labor
  {
    var peak := ArgMaxFirst(order, PatternScore(pats));
    var slow := ArgMinFirst(order, PatternScore(pats));
    [Insight(Demand, "Peak Day: " + DayName(peak), pats[peak] * 100.0, High),
     Insight(Labor, "Slowest Day: " + DayName(slow), pats[slow] * 100.0, Medium)]
  }

  predicate HasKind(xs: seq<Insight>, k: InsightType) {
    exists i :: 0 <= i < |xs| && xs[i].kind == k
  }

  lemma HasKindAppend(xs: seq<Insight>, ys: seq<Insight>, k: InsightType)
    ensures HasKind(xs + ys, k) <==> HasKind(xs, k) || HasKind(ys, k)
  {
    if HasKind(xs + ys, k) {
      var i :| 0 <= i < |xs + ys| && (xs + ys)[i].kind == k;
      if i >= |xs| {
        assert ys[i - |xs|] == (xs + ys)[i];
      }
    }
    if HasKind(ys, k) {
      var i :| 0 <= i < |ys| && ys[i].kind == k;
      assert (xs + ys)[|xs| + i] == ys[i];
    }
    if HasKind(xs, k) {
      var i :| 0 <= i < |xs| && xs[i].kind == k;
      assert (xs + ys)[i] == xs[i];
    }
  }

  /**
   * The insights fail only on a non-zero trend over a zero base; otherwise
   * the first names the busiest weekday (the first in key order on ties)
   * and the second the slowest.
   */
  lemma InsightsPeakAndSlow(pats: map<nat, real>, order: seq<nat>, trendSlope: real, baseCovers: real,
                            history: seq<DailySummary>)
    requires PatternsKeyed(pats, order) && |order| > 0
    ensures InsightsFor(pats, order, trendSlope, baseCovers, history).Err? <==> trendSlope != 0.0 && baseCovers == 0.0
    ensures var r := InsightsFor(pats, order, trendSlope, baseCovers, history);
      r.Ok? ==>
        && |r.value| >= 2
        && r.value[0].kind == Demand && r.value[0].impact == High
        && r.value[1].kind == Labor && r.value[1].impact == Medium
        && (forall k :: k in pats ==> pats[k] * 100.0 <= r.value[0].figure)
        && (forall k :: k in pats ==> r.value[1].figure <= pats[k] * 100.0)
  {
    var r := InsightsFor(pats, order, trendSlope, baseCovers, history);
    if r.Ok? {
      var score := PatternScore(pats);
      var peak := ArgMaxFirst(order, score);
      var slow := ArgMinFirst(order, score);
      ArgMaxFirstCorrect(order, score);
      ArgMinFirstCorrect(order, score);
      forall k | k in pats ensures pats[k] <= pats[peak] && pats[slow] <= pats[k] {
        var i :| 0 <= i < |order| && order[i] == k;
        assert score(order[i]) == pats[k];
      }
      assert r.value[0].figure == pats[peak] * 100.0;
      assert r.value[1].figure == pats[slow] * 100.0;
    }
  }

  lemma HasKindParts(head: seq<Insight>, t: seq<Insight>, c: seq<Insight>, w: seq<Insight>, k: InsightType)
    ensures HasKind(head + t + c + w, k) <==> HasKind(head, k) || HasKind(t, k) || HasKind(c, k) || HasKind(w, k)
  {
    HasKindAppend(head, t, k);
    HasKindAppend(head + t, c, k);
    HasKindAppend(head + t + c, w, k);
  }

  /** The trend insight is growth for a rising trend, risk for a falling one, absent when flat. */
  lemma TrendKinds(trendSlope: real, baseCovers: real)
    requires baseCovers != 0.0 || trendSlope == 0.0
    ensures HasKind(TrendInsights(trendSlope, baseCovers), Growth) <==> trendSlope > 0.0
    ensures HasKind(TrendInsights(trendSlope, baseCovers), Risk) <==> trendSlope < 0.0
    ensures !HasKind(TrendInsights(trendSlope, baseCovers), Channel)
    ensures !HasKind(TrendInsights(trendSlope, baseCovers), Waste)
  {
    var t := TrendInsights(trendSlope, baseCovers);
    if trendSlope != 0.0 { assert t[0] in t; }
  }

  lemma ChannelAndWasteKinds(history: seq<DailySummary>)
    ensures HasKind(ChannelInsights(history), Channel)
            <==> |LastN(history, 14)| > 0 && DeliveryShare(LastN(history, 14)) > 0.30
    ensures !HasKind(ChannelInsights(history), Growth) && !HasKind(ChannelInsights(history), Risk)
    ensures !HasKind(ChannelInsights(history), Waste)
    ensures HasKind(WasteInsights(history), Waste) <==> WastePerCover(history) > 0.10
    ensures !HasKind(WasteInsights(history), Growth) && !HasKind(WasteInsights(history), Risk)
    ensures !HasKind(WasteInsights(history), Channel)
  {
    var c := ChannelInsights(history);
    var w := WasteInsights(history);
    if |c| > 0 { assert c[0].kind == Channel; }
    if |w| > 0 { assert w[0].kind == Waste; }
  }

  /** Each optional insight is present exactly when its threshold is crossed. */
  lemma InsightsOptional(pats: map<nat, real>, order: seq<nat>, trendSlope: real, baseCovers: real,
                         history: seq<DailySummary>)
    requires PatternsKeyed(pats, order) && |order| > 0
    requires baseCovers != 0.0 || trendSlope == 0.0
    ensures var r := InsightsFor(pats, order, trendSlope, baseCovers, history);
        && r.Ok?
        && (HasKind(r.value, Growth) <==> trendSlope > 0.0)
        && (HasKind(r.value, Risk) <==> trendSlope < 0.0)
        && (HasKind(r.value, Channel) <==> |LastN(history, 14)| > 0 && DeliveryShare(LastN(history, 14)) > 0.30)
        && (HasKind(r.value, Waste) <==> WastePerCover(history) > 0.10)
  {
    var head := DayInsights(pats, order);
    var t := TrendInsights(trendSlope, baseCovers);
    var c := ChannelInsights(history);
    var w := WasteInsights(history);
    assert forall k :: HasKind(head, k) ==> k == Demand || k == Labor;
    TrendKinds(trendSlope, baseCovers);
    ChannelAndWasteKinds(history);
    HasKindParts(head, t, c, w, Growth);
    HasKindParts(head, t, c, w, Risk);
    HasKindParts(head, t, c, w, Channel);
    HasKindParts(head, t, c, w, Waste);
  }

  // ---------------------------------------------------------------------
  // Model summary

  datatype TrendDirection = Up | Down | Flat

  datatype ModelSummary = ModelSummary(
    isTrained: bool,
    trainingSamples: nat,
    baseDailyCovers: real,
    baseDailyRevenue: real,
    avgCheck: real,
    trendDirection: TrendDirection,
    trendSlopePerDay: real,
    accuracy: Option<AccuracyMetrics>,
    dayPatterns: seq<(string, real)>,
    itemsTracked: nat)

  function DirectionOf(slope: real): (d: TrendDirection)
    ensures d == Up <==> slope > 0.0
    ensures d == Down <==> slope < 0.0
    ensures d == Flat <==> slope == 0.0
  {
    if slope > 0.0 then Up else if slope < 0.0 then Down else Flat
  }

  /** The weekday keys below w that have a pattern, ascending: sorted(day_patterns). */
  function KeysBelow(pats: map<nat, real>, w: nat): (r: seq<nat>)
    requires w <= 7
    ensures |r| <= w
  {
    if w == 0 then [] else KeysBelow(pats, w - 1) + (if w - 1 in pats then [w - 1] else [])
  }

  /** The summary's day-pattern entries for the weekdays below w: short name and ratio to 3 decimals. */
  function PatternRows(pats: map<nat, real>, w: nat): seq<(string, real)>
    requires w <= 7
  {
    if w == 0 then []
    else PatternRows(pats, w - 1) + (if w - 1 in pats then [(ShortDayNames[w - 1], Round3(pats[w - 1]))] else [])
  }

  /**
   * The summary lists the patterns in ascending weekday order, once each,
   * every entry naming its weekday and carrying its ratio to three decimals.
   */
  lemma {:induction false} PatternRowsCorrect(pats: map<nat, real>, w: nat)
    requires w <= 7
    ensures |PatternRows(pats, w)| == |KeysBelow(pats, w)|
    ensures forall i :: 0 <= i < |KeysBelow(pats, w)| ==> 0 <= KeysBelow(pats, w)[i] < w
    ensures forall i, j :: 0 <= i < j < |KeysBelow(pats, w)| ==> KeysBelow(pats, w)[i] < KeysBelow(pats, w)[j]
    ensures forall k :: k in KeysBelow(pats, w) <==> k in pats && 0 <= k < w
    ensures forall i :: 0 <= i < |PatternRows(pats, w)| ==>
              PatternRows(pats, w)[i] == (ShortDayNames[KeysBelow(pats, w)[i]], Round3(pats[KeysBelow(pats, w)[i]]))
  {
    if w > 0 {
      PatternRowsCorrect(pats, w - 1);
    }
  }

  function SummaryFor(isTrained: bool, history: seq<DailySummary>, baseCovers: real, baseRevenue: real,
                      avgCheck: real, trendSlope: real, accuracy: Option<AccuracyMetrics>,
                      pats: map<nat, real>, itemPatterns: map<string, map<nat, real>>): (s: ModelSummary)
    ensures s.isTrained == isTrained && s.trainingSamples == |history| && s.accuracy == accuracy
    ensures s.trendDirection == DirectionOf(trendSlope) && s.itemsTracked == |itemPatterns|
  {
    ModelSummary(isTrained, |history|, Round1(baseCovers), Round2(baseRevenue), Round2(avgCheck),
                 DirectionOf(trendSlope), Round3(trendSlope), accuracy, PatternRows(pats, 7), |itemPatterns|)
  }

  // ---------------------------------------------------------------------
  // The engine

  class DemandForecastEngine {
    var historicalData: seq<DailySummary>
    var dayPatterns: map<nat, real>
    /** The insertion order of dayPatterns' keys, which breaks ties in the peak and slowest day. */
    var dayOrder: seq<nat>
    var monthPatterns: map<nat, real>
    var trendSlope: real
    var baseCovers: real
    var baseRevenue: real
    var avgCheck: real
    var isTrained: bool
    var accuracyMetrics: Option<AccuracyMetrics>
    var itemPatterns: map<string, map<nat, real>>

    ghost predicate Valid()
      reads this
    {
      PatternsKeyed(dayPatterns, dayOrder)
      && (isTrained ==> |historicalData| > 0 && |dayOrder| > 0)
    }

    constructor()
      ensures Valid() && !isTrained
      ensures historicalData == [] && dayPatterns == map[] && dayOrder == [] && monthPatterns == map[]
      ensures trendSlope == 0.0 && baseCovers == 0.0 && baseRevenue == 0.0 && avgCheck == 0.0
      ensures accuracyMetrics == None && itemPatterns == map[]
    {
      historicalData := [];
      dayPatterns := map[];
      dayOrder := [];
      monthPatterns := map[];
      trendSlope := 0.0;
      baseCovers := 0.0;
      baseRevenue := 0.0;
      avgCheck := 0.0;
      isTrained := false;
      accuracyMetrics := None;
      itemPatterns := map[];
    }

    function Params(): ModelParams
      reads this
    {
      ModelParams(dayPatterns, monthPatterns, trendSlope, baseCovers, avgCheck)
    }

    /**
     * train(): computes the means, patterns, trend, item table and accuracy.
     * An all-zero history raises a division by zero after the means and the
     * history have been stored.
     */
    method Train(data: seq<DailySummary>) returns (r: Result<(), EngineError>)
      requires Valid() && itemPatterns == map[]
      modifies this
      ensures Valid()
      ensures |data| == 0 ==> r == Err(NoHistoricalData) && unchanged(this)
      ensures |data| > 0 ==>
        && historicalData == data
        && baseCovers == MeanOf(data, CoversOf) && baseRevenue == MeanOf(data, RevenueOf)
        && avgCheck == MeanOf(data, CheckOf)
      ensures |data| > 0 && MeanOf(data, CoversOf) == 0.0 ==>
        && r == Err(DivisionByZero)
        && dayPatterns == old(dayPatterns) && dayOrder == old(dayOrder) && monthPatterns == old(monthPatterns)
        && trendSlope == old(trendSlope) && isTrained == old(isTrained)
        && accuracyMetrics == old(accuracyMetrics) && itemPatterns == old(itemPatterns)
      ensures |data| > 0 && MeanOf(data, CoversOf) != 0.0 ==>
        && r == Ok(()) && isTrained
        && dayPatterns == old(dayPatterns) + PatternOf(data, WeekdayOfRow, baseCovers)
        && dayOrder == AppendNew(old(dayOrder), KeyOrder(data, WeekdayOfRow))
        && monthPatterns == old(monthPatterns) + PatternOf(data, MonthOfRow, baseCovers)
        && trendSlope == Slope(data)
        && itemPatterns == ItemPatternsOf(data)
        && accuracyMetrics == (if AccuracyOf(Params(), data).Some? then AccuracyOf(Params(), data)
                               else old(accuracyMetrics))
    {
      if |data| == 0 {
        return Err(NoHistoricalData);
      }
      var covers := MeanOf(data, CoversOf);
      StoreMeans(data, covers, MeanOf(data, RevenueOf), MeanOf(data, CheckOf));
      if covers == 0.0 {
        return Err(DivisionByZero);
      }
      var days, order, months, slope, items, acc :=
        FitValues(data, dayPatterns, dayOrder, monthPatterns, covers, avgCheck);
      StoreFit(days, order, months, slope, items, acc);
      r := Ok(());
    }

    /** The first half of train(): the history and its three means. */
    method StoreMeans(data: seq<DailySummary>, covers: real, revenue: real, check: real)
      requires Valid() && |data| > 0
      modifies this
      ensures Valid()
      ensures historicalData == data && baseCovers == covers && baseRevenue == revenue && avgCheck == check
      ensures dayPatterns == old(dayPatterns) && dayOrder == old(dayOrder) && monthPatterns == old(monthPatterns)
      ensures trendSlope == old(trendSlope) && isTrained == old(isTrained)
      ensures accuracyMetrics == old(accuracyMetrics) && itemPatterns == old(itemPatterns)
    {
      historicalData := data;
      baseCovers := covers;
      baseRevenue := revenue;
      avgCheck := check;
    }

    /** The second half of train(): the fitted patterns, trend, item table and accuracy. */
    method StoreFit(days: map<nat, real>, order: seq<nat>, months: map<nat, real>, slope: real,
                    items: map<string, map<nat, real>>, acc: Option<AccuracyMetrics>)
      requires PatternsKeyed(days, order) && |order| > 0 && |historicalData| > 0
      modifies this
      ensures Valid() && isTrained
      ensures dayPatterns == days && dayOrder == order && monthPatterns == months
      ensures trendSlope == slope && itemPatterns == items
      ensures accuracyMetrics == (if acc.Some? then acc else old(accuracyMetrics))
      ensures historicalData == old(historicalData) && baseCovers == old(baseCovers)
      ensures baseRevenue == old(baseRevenue) && avgCheck == old(avgCheck)
    {
      dayPatterns, dayOrder, monthPatterns, trendSlope, itemPatterns := days, order, months, slope, items;
      if acc.Some? {
        accuracyMetrics := acc;
      }
      isTrained := true;
    }

    /** forecast(days_ahead): day i (from 1) is predicted at today + i, i days past the history. */
    method Forecast(daysAhead: int, today: int) returns (r: Result<seq<DemandForecast>, EngineError>)
      ensures !isTrained <==> r == Err(NotTrained)
      ensures r.Ok? ==> |r.value| == IMax(0, daysAhead)
      ensures r.Ok? ==> forall i :: 0 <= i < |r.value| ==>
                r.value[i] == PredictSingle(Params(), today + i + 1, |historicalData| + i + 1)
    {
      if !isTrained {
        return Err(NotTrained);
      }
      var m := Params();
      var n := |historicalData|;
      var fs: seq<DemandForecast> := [];
      var i := 1;
      while i <= daysAhead
        invariant 1 <= i <= IMax(0, daysAhead) + 1
        invariant |fs| == i - 1
        invariant forall t :: 0 <= t < |fs| ==> fs[t] == PredictSingle(m, today + t + 1, n + t + 1)
      {
        fs := fs + [PredictSingle(m, today + i, n + i)];
        i := i + 1;
      }
      r := Ok(fs);
    }

    /** forecast_items(days_ahead): one series per tracked item. */
    method ForecastItems(daysAhead: int, today: int) returns (r: Result<map<string, seq<ItemForecast>>, EngineError>)
      ensures !isTrained ==> r == Err(NotTrained)
      ensures isTrained ==> (r.Err? <==> baseCovers == 0.0 && daysAhead >= 1 && itemPatterns != map[])
      ensures r.Err? ==> r.error != NoHistoricalData
      ensures r.Ok? ==> r.value.Keys == itemPatterns.Keys
      ensures r.Ok? ==> forall name :: name in r.value ==> |r.value[name]| == IMax(0, daysAhead)
      ensures r.Ok? ==> forall name, i :: name in r.value && 0 <= i < |r.value[name]| ==>
                baseCovers != 0.0
                && r.value[name][i] == ItemForecastFor(itemPatterns[name], today, i + 1, trendSlope, baseCovers)
    {
      if !isTrained {
        return Err(NotTrained);
      }
      if baseCovers == 0.0 && daysAhead >= 1 && itemPatterns != map[] {
        return Err(DivisionByZero);
      }
      var out := ItemForecasts(itemPatterns, today, daysAhead, trendSlope, baseCovers);
      r := Ok(out);
    }

    /**
     * get_insights(): nothing before training; afterwards at least the
     * peak-day and slowest-day insights, never an error.
     */
    function GetInsights(): (r: Result<seq<Insight>, EngineError>)
      reads this
      requires Valid()
      ensures !isTrained ==> r == Ok([])
      ensures isTrained && (baseCovers != 0.0 || trendSlope == 0.0) ==>
        r.Ok? && |r.value| >= 2 && r.value[0].kind == Demand && r.value[1].kind == Labor
    {
      if !isTrained then Ok([])
      else
        InsightsPeakAndSlow(dayPatterns, dayOrder, trendSlope, baseCovers, historicalData);
        InsightsFor(dayPatterns, dayOrder, trendSlope, baseCovers, historicalData)
    }

    /** get_model_summary(): available before training too. */
    function GetModelSummary(): (s: ModelSummary)
      reads this
      ensures s.isTrained == isTrained && s.trainingSamples == |historicalData| && s.accuracy == accuracyMetrics
      ensures s.trendDirection == DirectionOf(trendSlope) && s.itemsTracked == |itemPatterns|
      ensures |s.dayPatterns| <= 7
      ensures forall i :: 0 <= i < |s.dayPatterns| ==>
                exists k :: 0 <= k < 7 && k in dayPatterns && s.dayPatterns[i] == (ShortDayNames[k], Round3(dayPatterns[k]))
    {
      PatternRowsCorrect(dayPatterns, 7);
      assert forall i :: 0 <= i < |KeysBelow(dayPatterns, 7)| ==>
               && KeysBelow(dayPatterns, 7)[i] in dayPatterns
               && PatternRows(dayPatterns, 7)[i]
                  == (ShortDayNames[KeysBelow(dayPatterns, 7)[i]], Round3(dayPatterns[KeysBelow(dayPatterns, 7)[i]]));
      SummaryFor(isTrained, historicalData, baseCovers, baseRevenue, avgCheck, trendSlope, accuracyMetrics,
                 dayPatterns, itemPatterns)
    }
  }
}
