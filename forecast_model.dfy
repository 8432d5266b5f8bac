/**
 * The arithmetic of the demand forecast engine (forecasting/demand_engine.py)
 * as functions of the engine's trained parameters: base means, weekday and
 * month ratios, the least-squares trend, the single-day predictor with its
 * confidence band and channel split, the holdout accuracy score, and the
 * per-item averages.
 */
module ForecastModel {
  import opened Common
  import opened Daily
  import opened Core
  import opened Grouping

  // ---------------------------------------------------------------------
  // Training statistics

  /** sum(f(d) for d in data) / n */
  function MeanOf(data: seq<DailySummary>, f: DailySummary -> real): real
    requires |data| > 0
  {
    SumOf(data, f) / (|data| as real)
  }

  /** Covers per weekday (or month) as a ratio of the overall mean, for the keys that occur. */
  function PatternOf(data: seq<DailySummary>, key: DailySummary -> nat, base: real): (r: map<nat, real>)
    requires base != 0.0
    ensures forall k :: k in r <==> exists i :: 0 <= i < |data| && key(data[i]) == k
    ensures forall k :: k in r ==> r[k] * base == Mean(ValuesFor(data, key, CoversOf, k))
  {
    map k | k in KeySet(data, key) :: Mean(ValuesFor(data, key, CoversOf, k)) / base
  }

  /** x̄ = (n - 1) / 2, the mean of the day indices 0..n-1. */
  function XMean(n: nat): real {
    ((n as real) - 1.0) / 2.0
  }

  /** Σ_{i<k} (i - x̄)(y_i - ȳ) */
  function SlopeNum(data: seq<DailySummary>, xm: real, ym: real, k: nat): real
    requires k <= |data|
  {
    if k == 0 then 0.0
    else SlopeNum(data, xm, ym, k - 1) + (((k - 1) as real) - xm) * (CoversOf(data[k - 1]) - ym)
  }

  /** Σ_{i<k} (i - x̄)² */
  function SlopeDen(xm: real, k: nat): real {
    if k == 0 then 0.0 else SlopeDen(xm, k - 1) + (((k - 1) as real) - xm) * (((k - 1) as real) - xm)
  }

  /** The least-squares slope of covers against day index, 0 when the denominator vanishes. */
  function Slope(data: seq<DailySummary>): (r: real)
    requires |data| > 0
    ensures |data| == 1 ==> r == 0.0
  {
    SlopeDenZeroIffSingleDay(|data|);
    var xm := XMean(|data|);
    var den := SlopeDen(xm, |data|);
    if den != 0.0 then SlopeNum(data, xm, MeanOf(data, CoversOf), |data|) / den else 0.0
  }

  lemma {:induction false} SlopeDenMonotone(xm: real, j: nat, k: nat)
    requires j <= k
    ensures 0.0 <= SlopeDen(xm, j) <= SlopeDen(xm, k)
  {
    if j < k {
      SlopeDenMonotone(xm, j, k - 1);
      var d := ((k - 1) as real) - xm;
      assert d * d >= 0.0;
    } else if j > 0 {
      SlopeDenMonotone(xm, j - 1, j - 1);
      var d := ((j - 1) as real) - xm;
      assert d * d >= 0.0;
    }
  }

  /** The regression denominator vanishes exactly for a single day of history. */
  lemma SlopeDenZeroIffSingleDay(n: nat)
    requires n >= 1
    ensures SlopeDen(XMean(n), n) == 0.0 <==> n == 1
  {
    var xm := XMean(n);
    if n >= 2 {
      SlopeDenMonotone(xm, 1, n);
      assert SlopeDen(xm, 1) == xm * xm;
      assert xm >= 0.5;
    }
  }

  /** Covers that lie exactly on a line of slope b give a numerator of b times the denominator. */
  lemma {:induction false} SlopeNumOfLine(data: seq<DailySummary>, xm: real, ym: real, b: real, k: nat)
    requires k <= |data|
    requires forall i :: 0 <= i < |data| ==> CoversOf(data[i]) == ym + b * ((i as real) - xm)
    ensures SlopeNum(data, xm, ym, k) == b * SlopeDen(xm, k)
  {
    if k > 0 {
      SlopeNumOfLine(data, xm, ym, b, k - 1);
      var d := ((k - 1) as real) - xm;
      assert CoversOf(data[k - 1]) - ym == b * d;
    }
  }

  lemma {:induction false} SumOfLine(data: seq<DailySummary>, a: real, b: real, k: nat)
    requires k <= |data|
    requires forall i :: 0 <= i < |data| ==> CoversOf(data[i]) == a + b * (i as real)
    ensures SumOf(data[..k], CoversOf) == (k as real) * a + b * ((k as real) * ((k as real) - 1.0) / 2.0)
  {
    if k > 0 {
      SumOfLine(data, a, b, k - 1);
      assert data[..k][..k - 1] == data[..k - 1];
      assert data[..k][k - 1] == data[k - 1];
    }
  }

  /**
   * On covers that grow exactly linearly, a + b·i, over two or more days
   * the trend slope is b: the regression recovers the line.
   */
  lemma SlopeOfLine(data: seq<DailySummary>, a: real, b: real)
    requires |data| >= 2
    requires forall i :: 0 <= i < |data| ==> CoversOf(data[i]) == a + b * (i as real)
    ensures Slope(data) == b
  {
    var n := |data|;
    var xm := XMean(n);
    SumOfLine(data, a, b, n);
    assert data[..n] == data;
    var ym := MeanOf(data, CoversOf);
    assert ym == a + b * xm by {
      assert SumOf(data, CoversOf) == (n as real) * (a + b * xm);
    }
    SlopeNumOfLine(data, xm, ym, b, n);
    SlopeDenZeroIffSingleDay(n);
  }

  /** Constant history: the means are that constant and the slope is 0. */
  lemma {:induction false} SumOfConstant(data: seq<DailySummary>, c: real)
    requires forall i :: 0 <= i < |data| ==> CoversOf(data[i]) == c
    ensures SumOf(data, CoversOf) == (|data| as real) * c
  {
    if |data| > 0 {
      SumOfConstant(data[..|data| - 1], c);
    }
  }

  lemma {:induction false} ValuesForConstant(data: seq<DailySummary>, key: DailySummary -> nat, k: nat, c: real)
    requires forall i :: 0 <= i < |data| ==> CoversOf(data[i]) == c
    ensures forall i :: 0 <= i < |ValuesFor(data, key, CoversOf, k)| ==> ValuesFor(data, key, CoversOf, k)[i] == c
  {
    if |data| > 0 {
      ValuesForConstant(data[..|data| - 1], key, k, c);
    }
  }

  lemma MeanOfConstant(vs: seq<real>, c: real)
    requires |vs| > 0
    requires forall i :: 0 <= i < |vs| ==> vs[i] == c
    ensures Mean(vs) == c
  {
    SumConstant(vs, c);
  }

  lemma DivideSelf(c: real)
    requires c != 0.0
    ensures c / c == 1.0
  {
  }

  /** With the same non-zero covers every day, every ratio of a pattern is 1. */
  lemma ConstantPattern(data: seq<DailySummary>, key: DailySummary -> nat, c: real)
    requires c != 0.0
    requires forall i :: 0 <= i < |data| ==> CoversOf(data[i]) == c
    ensures forall k :: k in PatternOf(data, key, c) ==> PatternOf(data, key, c)[k] == 1.0
  {
    var pat := PatternOf(data, key, c);
    forall k: nat | k in pat ensures pat[k] == 1.0 {
      var vs := ValuesFor(data, key, CoversOf, k);
      ValuesForConstant(data, key, k, c);
      ValuesForNonEmpty(data, key, CoversOf, k);
      MeanOfConstant(vs, c);
      assert pat[k] == Mean(vs) / c;
      DivideSelf(c);
    }
  }

  /**
   * With the same non-zero number of covers every day, the base is that
   * number, the trend is flat and every weekday and month ratio is 1.
   */
  lemma ConstantHistory(data: seq<DailySummary>, c: real)
    requires |data| > 0 && c != 0.0
    requires forall i :: 0 <= i < |data| ==> CoversOf(data[i]) == c
    ensures MeanOf(data, CoversOf) == c
    ensures Slope(data) == 0.0
    ensures forall k :: k in PatternOf(data, WeekdayOfRow, c) ==> PatternOf(data, WeekdayOfRow, c)[k] == 1.0
    ensures forall k :: k in PatternOf(data, MonthOfRow, c) ==> PatternOf(data, MonthOfRow, c)[k] == 1.0
  {
    SumOfConstant(data, c);
    var n := |data|;
    var xm := XMean(n);
    SlopeNumOfLine(data, xm, c, 0.0, n);
    ConstantPattern(data, WeekdayOfRow, c);
    ConstantPattern(data, MonthOfRow, c);
  }

  // ---------------------------------------------------------------------
  // The single-day predictor

  /** The trained parameters the predictor reads. */
  datatype ModelParams = ModelParams(
    dayPatterns: map<nat, real>,
    monthPatterns: map<nat, real>,
    trendSlope: real,
    baseCovers: real,
    avgCheck: real)

  /** patterns.get(k, 1.0) */
  function Factor(patterns: map<nat, real>, k: nat): real {
    if k in patterns then patterns[k] else 1.0
  }

  /** The dine-in / delivery / takeaway shares: Friday and Saturday, Thursday, other days. */
  function ChannelShares(dow: nat): (real, real, real) {
    if dow == 4 || dow == 5 then (0.42, 0.38, 0.20)
    else if dow == 3 then (0.50, 0.30, 0.20)
    else (0.52, 0.28, 0.20)
  }

  /** int(trend · day factor · month factor): truncated toward zero. */
  function PredictedCovers(m: ModelParams, date: int, daysFromStart: int): int {
    Trunc((m.baseCovers + m.trendSlope * (daysFromStart as real))
          * Factor(m.dayPatterns, Weekday(date)) * Factor(m.monthPatterns, Month(date)))
  }

  /** 1.96 standard deviations, the deviation being 12% of the base covers. */
  function HalfWidth(m: ModelParams): real {
    1.96 * (m.baseCovers * 0.12)
  }

  function PredictSingle(m: ModelParams, date: int, daysFromStart: int): (f: DemandForecast)
    ensures f.forecastDate == date && f.dayOfWeek == DayName(Weekday(date))
    ensures f.predictedCovers == PredictedCovers(m, date, daysFromStart)
    ensures f.confidenceLower >= 0
  {
    var p := PredictedCovers(m, date, daysFromStart);
    var pr := p as real;
    var lower := Max(0.0, pr - HalfWidth(m));
    var upper := pr + HalfWidth(m);
    var shares := ChannelShares(Weekday(date));
    RoundIntMonotone(0.0, lower);
    DemandForecast(date, p, Round2(pr * m.avgCheck), RoundInt(lower), RoundInt(upper), DayName(Weekday(date)),
                   ChannelBreakdown(RoundInt(shares.0 * pr), RoundInt(shares.1 * pr), RoundInt(shares.2 * pr)))
  }

  /** Each channel table splits the covers completely. */
  lemma ChannelSharesSumToOne(dow: nat)
    ensures ChannelShares(dow).0 + ChannelShares(dow).1 + ChannelShares(dow).2 == 1.0
    ensures ChannelShares(dow).0 > ChannelShares(dow).1 > ChannelShares(dow).2 > 0.0
  {
  }

  /** A weekday and month never seen in training leave the trend value untouched. */
  lemma UnseenFactorsAreNeutral(m: ModelParams, date: int, daysFromStart: int)
    requires Weekday(date) !in m.dayPatterns && Month(date) !in m.monthPatterns
    ensures PredictedCovers(m, date, daysFromStart) == Trunc(m.baseCovers + m.trendSlope * (daysFromStart as real))
  {
  }

  /**
   * For a non-negative base and prediction the band is ordered and contains
   * the prediction (up to rounding), and its upper end is at least 0.
   */
  lemma PredictionBand(m: ModelParams, date: int, daysFromStart: int)
    requires m.baseCovers >= 0.0
    requires PredictedCovers(m, date, daysFromStart) >= 0
    ensures 0 <= PredictSingle(m, date, daysFromStart).confidenceLower
              <= PredictSingle(m, date, daysFromStart).predictedCovers
              <= PredictSingle(m, date, daysFromStart).confidenceUpper
  {
    var p := PredictedCovers(m, date, daysFromStart) as real;
    var hw := HalfWidth(m);
    RoundIntMonotone(Max(0.0, p - hw), p);
    RoundIntMonotone(p, p + hw);
    assert RoundInt(p) == PredictedCovers(m, date, daysFromStart);
  }

  /**
   * Nothing clamps the prediction itself: two days of history, 10 covers on
   * a Thursday then 0 on a Friday, train a slope of -10 from a base of 5, and
   * the following Saturday is predicted at -25 covers with a band whose
   * upper end lies below its lower end.
   */
  lemma NegativeForecastExample()
    ensures var m := ModelParams(map[3 := 2.0, 4 := 0.0], map[1 := 1.0], -10.0, 5.0, 50.0);
      && PredictSingle(m, 2, 3).predictedCovers == -25
      && PredictSingle(m, 2, 3).confidenceUpper < PredictSingle(m, 2, 3).confidenceLower
  {
    var m := ModelParams(map[3 := 2.0, 4 := 0.0], map[1 := 1.0], -10.0, 5.0, 50.0);
    assert Weekday(2) == 5;
    assert Month(2) == 1 by {
      assert 719470 / 146097 == 4;
      assert 135082 / 1460 == 92 && 135082 / 36524 == 3 && 135082 / 146096 == 0;
      assert 134993 / 365 == 369;
      assert 369 / 4 == 92 && 369 / 100 == 3;
      assert 1542 / 153 == 10;
    }
    assert PredictedCovers(m, 2, 3) == -25;
  }

  // ---------------------------------------------------------------------
  // Holdout accuracy

  /** int(n * 0.8): the first holdout row. */
  function HoldoutStart(n: nat): nat {
    Trunc((n as real) * 0.8)
  }

  /** The holdout is the last fifth of the rows, rounded up, and is never empty. */
  lemma HoldoutNonEmpty(n: nat)
    requires n >= 1
    ensures HoldoutStart(n) < n
    ensures HoldoutStart(n) == (4 * n) / 5
  {
    var s := HoldoutStart(n);
    assert (s as real) <= (n as real) * 0.8 < (s as real) + 1.0;
    assert 5 * s <= 4 * n < 5 * s + 5;
  }

  /** The relative error of one holdout row, predicted at day n; rows without covers are skipped. */
  function HoldoutError(m: ModelParams, d: DailySummary, n: int): seq<real> {
    if d.totalCovers > 0
    then [Abs((d.totalCovers - PredictSingle(m, d.date, n).predictedCovers) as real) / (d.totalCovers as real)]
    else []
  }

  /** Relative errors over the holdout rows with positive actual covers, all predicted at day n. */
  function HoldoutErrors(m: ModelParams, rows: seq<DailySummary>, n: int): seq<real> {
    if |rows| == 0 then []
    else HoldoutErrors(m, rows[..|rows| - 1], n) + HoldoutError(m, rows[|rows| - 1], n)
  }

  datatype AccuracyMetrics = AccuracyMetrics(mape: real, accuracy: real, holdoutSize: nat, totalSamples: nat)

  /** The metrics the training records, or None when no holdout row has positive covers. */
  function AccuracyOf(m: ModelParams, data: seq<DailySummary>): (r: Option<AccuracyMetrics>)
    ensures r.None? <==> forall i :: HoldoutStart(|data|) <= i < |data| ==> data[i].totalCovers <= 0
    ensures r.Some? ==> r.value.totalSamples == |data| && r.value.holdoutSize == |data| - HoldoutStart(|data|)
    ensures r.Some? ==> 0 < r.value.holdoutSize <= r.value.totalSamples
    ensures r.Some? ==> 99.99 <= r.value.mape + r.value.accuracy <= 100.01 && r.value.mape >= 0.0
  {
    var holdout := data[IMin(HoldoutStart(|data|), |data|)..];
    var errors := HoldoutErrors(m, holdout, |data|);
    HoldoutErrorsNonNegative(m, holdout, |data|);
    HoldoutErrorsEmptyIff(m, holdout, |data|);
    assert |data| > 0 ==> HoldoutStart(|data|) < |data| by {
      if |data| > 0 { HoldoutNonEmpty(|data|); }
    }
    assert forall i :: 0 <= i < |holdout| ==> holdout[i] == data[HoldoutStart(|data|) + i];
    assert (forall i :: 0 <= i < |holdout| ==> holdout[i].totalCovers <= 0)
      <==> (forall i :: HoldoutStart(|data|) <= i < |data| ==> data[i].totalCovers <= 0) by {
      if |data| > 0 {
        forall i | HoldoutStart(|data|) <= i < |data| ensures data[i] == holdout[i - HoldoutStart(|data|)] { }
      }
    }
    if |errors| == 0 then None
    else
      MetricsComplement(errors, |holdout|, |data|);
      MetricsOf(errors, |holdout|, |data|)
  }

  /** The holdout contributes no error exactly when none of its rows has positive covers. */
  lemma {:induction false} HoldoutErrorsEmptyIff(m: ModelParams, rows: seq<DailySummary>, n: int)
    ensures |HoldoutErrors(m, rows, n)| == 0 <==> forall i :: 0 <= i < |rows| ==> rows[i].totalCovers <= 0
  {
    if |rows| > 0 {
      var front := rows[..|rows| - 1];
      HoldoutErrorsEmptyIff(m, front, n);
      assert forall i :: 0 <= i < |front| ==> front[i] == rows[i];
    }
  }

  /** The accuracy dictionary for a list of relative errors, or None when there are none. */
  function MetricsOf(errors: seq<real>, holdoutSize: nat, totalSamples: nat): Option<AccuracyMetrics> {
    if |errors| == 0 then None
    else Some(AccuracyMetrics(Round2(Mean(errors) * 100.0), Round2((1.0 - Mean(errors)) * 100.0),
                              holdoutSize, totalSamples))
  }

  lemma {:induction false} HoldoutErrorsNonNegative(m: ModelParams, rows: seq<DailySummary>, n: int)
    ensures forall i :: 0 <= i < |HoldoutErrors(m, rows, n)| ==> HoldoutErrors(m, rows, n)[i] >= 0.0
    ensures |HoldoutErrors(m, rows, n)| <= |rows|
  {
    if |rows| > 0 {
      var front := HoldoutErrors(m, rows[..|rows| - 1], n);
      var last := HoldoutError(m, rows[|rows| - 1], n);
      HoldoutErrorsNonNegative(m, rows[..|rows| - 1], n);
      HoldoutErrorNonNegative(m, rows[|rows| - 1], n);
      assert HoldoutErrors(m, rows, n) == front + last;
    }
  }

  lemma HoldoutErrorNonNegative(m: ModelParams, d: DailySummary, n: int)
    ensures |HoldoutError(m, d, n)| <= 1
    ensures forall i :: 0 <= i < |HoldoutError(m, d, n)| ==> HoldoutError(m, d, n)[i] >= 0.0
  {
    if d.totalCovers > 0 {
      var p := PredictSingle(m, d.date, n).predictedCovers;
      var a := Abs((d.totalCovers - p) as real);
      assert a >= 0.0;
      assert HoldoutError(m, d, n) == [a / (d.totalCovers as real)];
    }
  }

  lemma {:induction false} SumNonNegative(xs: seq<real>)
    requires forall i :: 0 <= i < |xs| ==> xs[i] >= 0.0
    ensures Sum(xs) >= 0.0
  {
    if |xs| > 0 {
      SumNonNegative(xs[..|xs| - 1]);
    }
  }

  /** round(100 e, 2) and round(100 (1 - e), 2) add up to 100 within the two roundings. */
  lemma RoundedComplement(e: real)
    requires e >= 0.0
    ensures 99.99 <= Round2(e * 100.0) + Round2((1.0 - e) * 100.0) <= 100.01
    ensures Round2(e * 100.0) >= 0.0
  {
    Round2Error(e * 100.0);
    Round2Error((1.0 - e) * 100.0);
    Round2Nonnegative(e * 100.0);
  }

  /**
   * The recorded MAPE and accuracy add up to 100 within the two roundings,
   * the MAPE is non-negative, and the holdout size is at most the sample count.
   */
  lemma MetricsComplement(errors: seq<real>, holdoutSize: nat, totalSamples: nat)
    requires MetricsOf(errors, holdoutSize, totalSamples).Some?
    requires forall i :: 0 <= i < |errors| ==> errors[i] >= 0.0
    ensures var acc := MetricsOf(errors, holdoutSize, totalSamples).value;
      99.99 <= acc.mape + acc.accuracy <= 100.01 && acc.mape >= 0.0
  {
    SumNonNegative(errors);
    RoundedComplement(Mean(errors));
  }

  // ---------------------------------------------------------------------
  // Item-level patterns

  /** One (item, weekday, quantity) observation. */
  datatype ItemEntry = ItemEntry(name: string, dow: nat, qty: real)

  function ItemKey(e: ItemEntry): (string, int) { (e.name, e.dow) }
  function QtyOf(e: ItemEntry): real { e.qty }

  /** The observations of one day's item_orders, in dictionary order. */
  function RowEntries(items: seq<(string, int)>, dow: nat): seq<ItemEntry> {
    if |items| == 0 then []
    else RowEntries(items[..|items| - 1], dow) + [ItemEntry(items[|items| - 1].0, dow, items[|items| - 1].1 as real)]
  }

  /** Every observation of the history, day after day. */
  function ItemEntries(data: seq<DailySummary>): seq<ItemEntry> {
    if |data| == 0 then []
    else ItemEntries(data[..|data| - 1]) + RowEntries(data[|data| - 1].itemOrders, WeekdayOfRow(data[|data| - 1]))
  }

  /** item_patterns[name][dow].append(qty), creating the levels on first use. */
  function AddEntry(p: map<string, map<nat, seq<real>>>, e: ItemEntry): map<string, map<nat, seq<real>>> {
    var row: map<nat, seq<real>> := if e.name in p then p[e.name] else map[];
    var values: seq<real> := if e.dow in row then row[e.dow] + [e.qty] else [e.qty];
    var row': map<nat, seq<real>> := row[e.dow := values];
    p[e.name := row']
  }

  function CollectItems(es: seq<ItemEntry>): map<string, map<nat, seq<real>>> {
    if |es| == 0 then map[] else AddEntry(CollectItems(es[..|es| - 1]), es[|es| - 1])
  }

  /** Replace every quantity list by its mean. */
  function ItemAverages(p: map<string, map<nat, seq<real>>>): map<string, map<nat, real>> {
    map name | name in p :: map dow | dow in p[name] :: Mean(p[name][dow])
  }

  function ItemPatternsOf(data: seq<DailySummary>): map<string, map<nat, real>> {
    ItemAverages(CollectItems(ItemEntries(data)))
  }

  predicate HasItem(es: seq<ItemEntry>, name: string) {
    exists t :: 0 <= t < |es| && es[t].name == name
  }

  lemma HasItemStep(es: seq<ItemEntry>, name: string)
    requires |es| > 0
    ensures HasItem(es, name) <==> HasItem(es[..|es| - 1], name) || es[|es| - 1].name == name
  {
    var p := es[..|es| - 1];
    if HasItem(p, name) {
      var t :| 0 <= t < |p| && p[t].name == name;
      assert es[t] == p[t];
    }
  }

  lemma NoItemNoKey(es: seq<ItemEntry>, name: string, dow: nat)
    requires !HasItem(es, name)
    ensures (name, dow) !in KeySet(es, ItemKey)
  {
  }

  /**
   * The collected table has an item exactly when it was ever ordered, a
   * weekday under it exactly when it was ordered on that weekday, and there
   * the quantities observed for that pair, in order.
   */
  lemma {:induction false} CollectItemsAt(es: seq<ItemEntry>, name: string, dow: nat)
    ensures name in CollectItems(es) <==> HasItem(es, name)
    ensures name in CollectItems(es) ==>
              (dow in CollectItems(es)[name] <==> (name, dow) in KeySet(es, ItemKey))
    ensures name in CollectItems(es) && dow in CollectItems(es)[name] ==>
              CollectItems(es)[name][dow] == ValuesFor(es, ItemKey, QtyOf, (name, dow))
  {
    if |es| > 0 {
      var n := |es| - 1;
      var p := es[..n];
      CollectItemsAt(p, name, dow);
      HasItemStep(es, name);
      KeySetStep(es, ItemKey, n);
      ValuesForStep(es, ItemKey, QtyOf, n);
      ValuesForNonEmpty(p, ItemKey, QtyOf, (name, dow));
      assert es[..n + 1] == es;
      if !HasItem(p, name) {
        NoItemNoKey(p, name, dow);
      }
    }
  }

  lemma CollectItemsCorrect(es: seq<ItemEntry>)
    ensures forall name :: name in CollectItems(es) <==> HasItem(es, name)
    ensures forall name, dow :: name in CollectItems(es) ==>
              (dow in CollectItems(es)[name] <==> (name, dow) in KeySet(es, ItemKey))
    ensures forall name, dow :: name in CollectItems(es) && dow in CollectItems(es)[name] ==>
              CollectItems(es)[name][dow] == ValuesFor(es, ItemKey, QtyOf, (name, dow))
  {
    forall name ensures name in CollectItems(es) <==> HasItem(es, name) {
      CollectItemsAt(es, name, 0);
    }
    forall name, dow ensures name in CollectItems(es) ==>
              (dow in CollectItems(es)[name] <==> (name, dow) in KeySet(es, ItemKey))
    {
      CollectItemsAt(es, name, dow);
    }
    forall name, dow | name in CollectItems(es) && dow in CollectItems(es)[name]
      ensures CollectItems(es)[name][dow] == ValuesFor(es, ItemKey, QtyOf, (name, dow))
    {
      CollectItemsAt(es, name, dow);
    }
  }

  /** Per-item quantity for a forecast day: the weekday mean (0 if never seen) scaled by the trend. */
  function ItemQuantity(dowPatterns: map<nat, real>, dow: nat, trendSlope: real, baseCovers: real, i: int): (q: int)
    requires baseCovers != 0.0
    ensures q >= 0
    ensures dow !in dowPatterns ==> q == 0
  {
    var baseQty := if dow in dowPatterns then dowPatterns[dow] else 0.0;
    var trendFactor := 1.0 + (trendSlope / baseCovers) * (i as real);
    IMax(0, Trunc(baseQty * trendFactor))
  }

  /** With a flat trend the item quantity is the weekday mean truncated. */
  lemma FlatTrendItemQuantity(dowPatterns: map<nat, real>, dow: nat, baseCovers: real, i: int)
    requires baseCovers != 0.0 && dow in dowPatterns && dowPatterns[dow] >= 0.0
    ensures ItemQuantity(dowPatterns, dow, 0.0, baseCovers, i) == dowPatterns[dow].Floor
  {
  }
}
