/**
 * The analytics page's arithmetic over the daily summary rows: the 7-day
 * trailing moving average drawn over every series, the week-on-week and
 * month-on-month deltas of the KPI cards, the cost-structure remainder, the
 * average covers by day of week and the three adoption-scenario curves.
 */
module Analytics {
  import opened Common
  import opened Daily
  import Grouping

  /** [f(d) for d in orders] */
  function Series(orders: seq<DailySummary>, f: DailySummary -> real): (r: seq<real>)
    ensures |r| == |orders|
    ensures forall i :: 0 <= i < |orders| ==> r[i] == f(orders[i])
  {
    seq(|orders|, i requires 0 <= i < |orders| => f(orders[i]))
  }

  lemma {:induction false} SumOfIsSumOfSeries(orders: seq<DailySummary>, f: DailySummary -> real)
    ensures SumOf(orders, f) == Sum(Series(orders, f))
  {
    if |orders| > 0 {
      var n := |orders| - 1;
      SumOfIsSumOfSeries(orders[..n], f);
      assert Series(orders, f)[..n] == Series(orders[..n], f);
    }
  }

  // ---------------------------------------------------------------------
  // 7-day moving average

  /** xs[max(0, i - 6):i + 1], the up to seven values ending at i. */
  function Window(xs: seq<real>, i: nat): seq<real>
    requires i < |xs|
  {
    xs[IMax(0, i - 6)..i + 1]
  }

  /**
   * [sum(xs[max(0, i-6):i+1]) / min(7, i+1) for i in range(len(xs))]: one
   * point per input value, point i the mean of the min(7, i + 1) values
   * ending at i (the last seven once i >= 6); the first point is the first
   * value.
   */
  function MovingAverage7(xs: seq<real>): (r: seq<real>)
    ensures |r| == |xs|
    ensures forall i :: 0 <= i < |xs| ==> |Window(xs, i)| == IMin(7, i + 1) && r[i] == Mean(Window(xs, i))
    ensures forall i :: 6 <= i < |xs| ==> Window(xs, i) == xs[i - 6..i + 1]
    ensures |xs| > 0 ==> r[0] == xs[0]
  {
    assert |xs| > 0 ==> Window(xs, 0) == [xs[0]] && Sum([xs[0]]) == Sum([xs[0]][..0]) + xs[0];
    seq(|xs|, i requires 0 <= i < |xs| => Sum(Window(xs, i)) / (IMin(7, i + 1) as real))
  }

  /** The moving average stays within any bounds the values keep. */
  lemma MovingAverageBounds(xs: seq<real>, lo: real, hi: real)
    requires forall i :: 0 <= i < |xs| ==> lo <= xs[i] <= hi
    ensures forall i :: 0 <= i < |xs| ==> lo <= MovingAverage7(xs)[i] <= hi
  {
    forall i | 0 <= i < |xs|
      ensures lo <= MovingAverage7(xs)[i] <= hi
    {
      var w := Window(xs, i);
      forall j | 0 <= j < |w| ensures lo <= w[j] <= hi {
        assert w[j] == xs[IMax(0, i - 6) + j];
      }
      MeanBounds(w, lo, hi);
    }
  }

  // ---------------------------------------------------------------------
  // Period deltas

  /**
   * ((a - p) / p * 100) if p > 0 else 0. With a positive previous value the
   * delta is the percentage change: applying it to the previous value gives
   * the current one back, and it is non-negative exactly when the value did
   * not fall. Otherwise it is 0.
   */
  function Delta(a: real, p: real): (d: real)
    ensures p <= 0.0 ==> d == 0.0
    ensures p > 0.0 ==> p + p * d / 100.0 == a
    ensures p > 0.0 ==> (d >= 0.0 <==> a >= p)
    ensures p > 0.0 ==> (d == 0.0 <==> a == p)
  {
    if p > 0.0 then
      var q := (a - p) / p;
      assert q * p == a - p;
      q * 100.0
    else 0.0
  }

  // ---------------------------------------------------------------------
  // Operations tab

  datatype OperationsKpis = OperationsKpis(
    avgCovers7: real, prevCovers7: real, coversDelta: real,
    avgWaste7: real, prevWaste7: real, wasteDelta: real,
    totalCovers90: real)

  /**
   * The KPI row: the last seven rows against the seven before them, each
   * summed and divided by 7. Each delta is the percentage change from the
   * week before, and 0 when that week is empty, as it is up to seven rows.
   */
  function OperationsKpisOf(orders: seq<DailySummary>): (k: OperationsKpis)
    ensures k.prevCovers7 > 0.0 ==> k.prevCovers7 + k.prevCovers7 * k.coversDelta / 100.0 == k.avgCovers7
    ensures k.prevCovers7 <= 0.0 ==> k.coversDelta == 0.0
    ensures k.prevWaste7 > 0.0 ==> k.prevWaste7 + k.prevWaste7 * k.wasteDelta / 100.0 == k.avgWaste7
    ensures k.prevWaste7 <= 0.0 ==> k.wasteDelta == 0.0
    ensures |orders| <= 7 ==> k.prevCovers7 == 0.0 && k.coversDelta == 0.0 && k.prevWaste7 == 0.0 && k.wasteDelta == 0.0
  {
    assert |orders| <= 7 ==> SliceFromEnd(orders, 14, 7) == [];
    var last7 := LastN(orders, 7);
    var prev7 := SliceFromEnd(orders, 14, 7);
    var avgCovers := SumOf(last7, CoversOf) / 7.0;
    var prevCovers := SumOf(prev7, CoversOf) / 7.0;
    var avgWaste := SumOf(last7, WasteOf) / 7.0;
    var prevWaste := SumOf(prev7, WasteOf) / 7.0;
    OperationsKpis(avgCovers, prevCovers, Delta(avgCovers, prevCovers),
                   avgWaste, prevWaste, Delta(avgWaste, prevWaste), SumOf(orders, CoversOf))
  }

  lemma WindowOfLast(xs: seq<real>)
    requires |xs| >= 7
    ensures Window(xs, |xs| - 1) == xs[|xs| - 7..]
  {
  }

  /**
   * The two weeks the KPI row compares are adjacent and hold seven rows each
   * once there are at least fourteen rows; then each average is the mean of
   * its seven rows. With fewer rows the week before is short (empty up to
   * seven rows, so the delta is 0) and is still divided by 7.
   */
  lemma WeekWindows(orders: seq<DailySummary>)
    ensures |SliceFromEnd(orders, 14, 7)| == IMax(0, |orders| - 7) - IMax(0, |orders| - 14)
    ensures |orders| >= 14 ==>
      && LastN(orders, 14) == SliceFromEnd(orders, 14, 7) + LastN(orders, 7)
      && OperationsKpisOf(orders).avgCovers7 == Mean(Series(LastN(orders, 7), CoversOf))
      && OperationsKpisOf(orders).prevCovers7 == Mean(Series(SliceFromEnd(orders, 14, 7), CoversOf))
  {
    SumOfIsSumOfSeries(LastN(orders, 7), CoversOf);
    SumOfIsSumOfSeries(SliceFromEnd(orders, 14, 7), CoversOf);
  }

  /** With a week of rows, the 7-day covers KPI is the last point of the moving-average line. */
  lemma KpiIsLastTrendPoint(orders: seq<DailySummary>)
    requires |orders| >= 7
    ensures OperationsKpisOf(orders).avgCovers7 == MovingAverage7(Series(orders, CoversOf))[|orders| - 1]
  {
    var n := |orders|;
    var xs := Series(orders, CoversOf);
    SumOfIsSumOfSeries(LastN(orders, 7), CoversOf);
    WindowOfLast(xs);
    assert Series(LastN(orders, 7), CoversOf) == xs[n - 7..];
  }

  // ---------------------------------------------------------------------
  // Financial tab

  datatype FinancialKpis = FinancialKpis(
    total30: real, avgCheck: real, avgFood: real, avgLabor: real,
    prev30: real, revDelta: real)

  /**
   * The window the previous-period revenue sums: [-60:-30] with sixty rows
   * or more, which is the thirty rows just before the last thirty; below
   * sixty the first thirty rows, which overlap the last thirty and, with
   * thirty rows or fewer, are the same window.
   */
  function PreviousPeriod(orders: seq<DailySummary>): (w: seq<DailySummary>)
    ensures |orders| >= 60 ==> LastN(orders, 60) == w + LastN(orders, 30)
    ensures |orders| < 60 ==> w == orders[..IMin(30, |orders|)]
    ensures |orders| <= 30 ==> w == LastN(orders, 30)
  {
    if |orders| >= 60 then SliceFromEnd(orders, 60, 30) else FirstN(orders, 30)
  }

  /**
   * The financial KPI row: the last thirty days' revenue against the
   * previous period's, with the percentage change between them; with
   * thirty rows or fewer the two periods coincide and the change is 0.
   */
  function FinancialKpisOf(orders: seq<DailySummary>): (k: FinancialKpis)
    ensures k.total30 == SumOf(LastN(orders, 30), RevenueOf) && k.prev30 == SumOf(PreviousPeriod(orders), RevenueOf)
    ensures k.prev30 > 0.0 ==> k.prev30 + k.prev30 * k.revDelta / 100.0 == k.total30
    ensures |orders| <= 30 ==> k.prev30 == k.total30 && k.revDelta == 0.0
  {
    var last30 := LastN(orders, 30);
    var total := SumOf(last30, RevenueOf);
    var prev := SumOf(PreviousPeriod(orders), RevenueOf);
    FinancialKpis(total, SumOf(last30, CheckOf) / 30.0, SumOf(last30, FoodCostOf) / 30.0,
                  SumOf(last30, LaborCostOf) / 30.0, prev, Delta(total, prev))
  }

  /** The cost-structure chart: food, labor, the clamped remainder and the fixed 12% profit. */
  datatype CostStructure = CostStructure(food: real, labor: real, other: real, profit: real)

  /**
   * avg_other = 100 - avg_food - avg_labor - 12, drawn as max(0, avg_other).
   * The remainder is never drawn negative, and the four shares add up to
   * exactly 100 when food and labor leave room for the 12% profit;
   * otherwise they add up to more.
   */
  function CostStructureOf(avgFood: real, avgLabor: real): (c: CostStructure)
    ensures c.food == avgFood && c.labor == avgLabor && c.other >= 0.0 && c.profit == 12.0
    ensures avgFood + avgLabor <= 88.0 <==> c.food + c.labor + c.other + c.profit == 100.0
    ensures avgFood + avgLabor > 88.0 ==> c.food + c.labor + c.other + c.profit > 100.0 && c.other == 0.0
  {
    var other := 100.0 - avgFood - avgLabor - 12.0;
    CostStructure(avgFood, avgLabor, if other > 0.0 then other else 0.0, 12.0)
  }

  // ---------------------------------------------------------------------
  // Average covers by day of week

  /** One entry of avg_by_dow per name of names present, as the comprehension builds it. */
  function AveragesOver(names: seq<string>, orders: seq<DailySummary>): seq<(string, real)> {
    if |names| == 0 then []
    else
      var rest := AveragesOver(names[..|names| - 1], orders);
      var d := names[|names| - 1];
      if d in Grouping.KeySet(orders, DayNameOfRow)
      then rest + [(d, Mean(Grouping.ValuesFor(orders, DayNameOfRow, CoversOf, d)))]
      else rest
  }

  /**
   * avg_by_dow over Monday to Sunday: an entry for exactly the days some row
   * carries, in calendar order, each holding the mean covers of that day's rows.
   */
  function DayOfWeekAverages(orders: seq<DailySummary>): (es: seq<(string, real)>)
    ensures EntryDays(es) == Filter(DayNames, DayPresent(orders))
    ensures forall e :: e in es ==> e.1 == Mean(Grouping.ValuesFor(orders, DayNameOfRow, CoversOf, e.0))
  {
    AveragesOverDays(DayNames, orders);
    AveragesOverValues(DayNames, orders);
    AveragesOver(DayNames, orders)
  }

  function EntryName(e: (string, real)): string { e.0 }

  function DayPresent(orders: seq<DailySummary>): string -> bool {
    d => d in Grouping.KeySet(orders, DayNameOfRow)
  }

  function EntryDays(es: seq<(string, real)>): (r: seq<string>)
    ensures |r| == |es|
    ensures forall i :: 0 <= i < |es| ==> r[i] == es[i].0
  {
    if |es| == 0 then [] else EntryDays(es[..|es| - 1]) + [es[|es| - 1].0]
  }

  lemma EntryDaysAppend(xs: seq<(string, real)>, ys: seq<(string, real)>)
    ensures EntryDays(xs + ys) == EntryDays(xs) + EntryDays(ys)
  {
  }

  /** The days of names that occur in the rows, in the order of names. */
  lemma {:induction false} AveragesOverDays(names: seq<string>, orders: seq<DailySummary>)
    ensures EntryDays(AveragesOver(names, orders)) == Filter(names, DayPresent(orders))
  {
    if |names| > 0 {
      var n := |names| - 1;
      var d := names[n];
      var rest := AveragesOver(names[..n], orders);
      AveragesOverDays(names[..n], orders);
      if DayPresent(orders)(d) {
        var e := (d, Mean(Grouping.ValuesFor(orders, DayNameOfRow, CoversOf, d)));
        assert AveragesOver(names, orders) == rest + [e];
        assert Filter(names, DayPresent(orders)) == Filter(names[..n], DayPresent(orders)) + [d];
        EntryDaysAppend(rest, [e]);
      } else {
        assert AveragesOver(names, orders) == rest;
        assert Filter(names, DayPresent(orders)) == Filter(names[..n], DayPresent(orders));
      }
    }
  }

  /** Each entry holds the mean of the covers of the rows with that day name. */
  lemma {:induction false} AveragesOverValues(names: seq<string>, orders: seq<DailySummary>)
    ensures forall e :: e in AveragesOver(names, orders) ==>
      e.1 == Mean(Grouping.ValuesFor(orders, DayNameOfRow, CoversOf, e.0))
  {
    if |names| > 0 {
      AveragesOverValues(names[..|names| - 1], orders);
    }
  }

  /**
   * A weekday has an entry exactly when some row carries its name, and each
   * entry's average lies within the covers of the rows.
   */
  lemma DayOfWeekFacts(orders: seq<DailySummary>, lo: real, hi: real)
    requires forall i :: 0 <= i < |orders| ==> lo <= CoversOf(orders[i]) <= hi
    ensures forall k :: 0 <= k < 7 ==>
      (DayNames[k] in EntryDays(DayOfWeekAverages(orders)) <==> DayNames[k] in Grouping.KeySet(orders, DayNameOfRow))
    ensures forall e :: e in DayOfWeekAverages(orders) ==> lo <= e.1 <= hi
  {
    var es := DayOfWeekAverages(orders);
    forall k | 0 <= k < 7
      ensures DayNames[k] in EntryDays(es) <==> DayNames[k] in Grouping.KeySet(orders, DayNameOfRow)
    {
      FilterMembership(DayNames, DayPresent(orders), DayNames[k]);
    }
    forall i | 0 <= i < |es|
      ensures lo <= es[i].1 <= hi
    {
      EntryBounds(orders, es[i], lo, hi);
    }
  }

  lemma EntryBounds(orders: seq<DailySummary>, e: (string, real), lo: real, hi: real)
    requires forall i :: 0 <= i < |orders| ==> lo <= CoversOf(orders[i]) <= hi
    requires e in DayOfWeekAverages(orders)
    ensures lo <= e.1 <= hi
  {
    var vs := Grouping.ValuesFor(orders, DayNameOfRow, CoversOf, e.0);
    var es := DayOfWeekAverages(orders);
    AveragesOverDays(DayNames, orders);
    AveragesOverValues(DayNames, orders);
    assert e.1 == Mean(vs);
    var i :| 0 <= i < |es| && es[i] == e;
    var present := Filter(DayNames, DayPresent(orders));
    assert present[i] == EntryDays(es)[i] == e.0;
    assert DayPresent(orders)(present[i]);
    Grouping.ValuesForNonEmpty(orders, DayNameOfRow, CoversOf, e.0);
    ValuesInBounds(orders, e.0, lo, hi);
    MeanBounds(vs, lo, hi);
  }

  lemma {:induction false} ValuesInBounds(orders: seq<DailySummary>, d: string, lo: real, hi: real)
    requires forall i :: 0 <= i < |orders| ==> lo <= CoversOf(orders[i]) <= hi
    ensures forall j :: 0 <= j < |Grouping.ValuesFor(orders, DayNameOfRow, CoversOf, d)| ==>
      lo <= Grouping.ValuesFor(orders, DayNameOfRow, CoversOf, d)[j] <= hi
  {
    if |orders| > 0 {
      ValuesInBounds(orders[..|orders| - 1], d, lo, hi);
    }
  }

  /**
   * show_operations_analytics' grouping: the defaultdict filled by the append
   * loop, then one average per weekday present, Monday first.
   */
  method AverageCoversByDay(orders: seq<DailySummary>) returns (avg: seq<(string, real)>)
    ensures avg == DayOfWeekAverages(orders)
  {
    var groups, order := Grouping.GroupBy(orders, DayNameOfRow, CoversOf);
    avg := [];
    var i := 0;
    while i < |DayNames|
      invariant 0 <= i <= |DayNames|
      invariant avg == AveragesOver(DayNames[..i], orders)
    {
      var d := DayNames[i];
      assert DayNames[..i + 1][..i] == DayNames[..i];
      if d in groups {
        var vs := groups[d];
        avg := avg + [(d, Sum(vs) / (|vs| as real))];
      }
      i := i + 1;
    }
    assert DayNames[..|DayNames|] == DayNames;
  }

  // ---------------------------------------------------------------------
  // Adoption scenarios

  function Conservative(month: int): int { IMin(5 + month * 2, 80) }
  function BaseCase(month: int): int { IMin(5 + month * 4, 200) }
  function Upside(month: int): int { IMin(5 + month * 7, 400) }

  /** The three curves over months 1 to 24. */
  function Scenario(curve: int -> int): (r: seq<int>)
    ensures |r| == 24
    ensures forall i :: 0 <= i < 24 ==> r[i] == curve(i + 1)
  {
    seq(24, i => curve(i + 1))
  }

  /**
   * Over the 24 months shown the curves are ordered conservative <= base <=
   * upside, strictly from month 1, each strictly increasing, and no cap is
   * reached: each is its linear formula.
   */
  lemma ScenarioFacts()
    ensures forall i :: 0 <= i < 24 ==>
      Scenario(Conservative)[i] < Scenario(BaseCase)[i] < Scenario(Upside)[i]
    ensures forall i :: 0 <= i < 24 ==>
      && Scenario(Conservative)[i] == 7 + 2 * i
      && Scenario(BaseCase)[i] == 9 + 4 * i
      && Scenario(Upside)[i] == 12 + 7 * i
    ensures forall i, j :: 0 <= i < j < 24 ==>
      && Scenario(Conservative)[i] < Scenario(Conservative)[j]
      && Scenario(BaseCase)[i] < Scenario(BaseCase)[j]
      && Scenario(Upside)[i] < Scenario(Upside)[j]
  {
  }

  /** For every month, not just those shown, the curves keep their order. */
  lemma ScenarioOrder(month: int)
    requires month >= 0
    ensures Conservative(month) <= BaseCase(month) <= Upside(month)
  {
  }
}
