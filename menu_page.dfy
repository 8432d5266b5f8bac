/**
 * The decision rules of the menu page: the menu-engineering quadrants
 * (popularity and margin against their menu averages), the stars KPI, the
 * food-cost, low-popularity and pricing recommendations and the top
 * performers by daily profit contribution.
 */
module MenuPage {
  import opened Common
  import opened Core
  import Sorting

  function Margin(m: MenuItem): real { m.price - m.cost }
  function Popularity(m: MenuItem): real { m.popularityScore }
  function FoodCost(m: MenuItem): real { m.foodCostPct }
  function DailyProfit(m: MenuItem): real { (m.price - m.cost) * m.avgDailyOrders }
  function NameOf(m: MenuItem): string { m.name }

  /** The names of the items, in order. */
  function ItemNames(menu: seq<MenuItem>): (r: seq<string>)
    ensures |r| == |menu|
    ensures forall i :: 0 <= i < |menu| ==> r[i] == menu[i].name
  {
    if |menu| == 0 then [] else ItemNames(menu[..|menu| - 1]) + [menu[|menu| - 1].name]
  }

  // ---------------------------------------------------------------------
  // Averages

  /** The KPI averages: guarded, 0 for an empty menu. */
  function GuardedMean(menu: seq<MenuItem>, f: MenuItem -> real): real {
    if |menu| > 0 then SumOf(menu, f) / (|menu| as real) else 0.0
  }

  /** The matrix and recommendation averages divide by the menu length unguarded. */
  function MenuMean(menu: seq<MenuItem>, f: MenuItem -> real): real
    requires |menu| > 0
  {
    SumOf(menu, f) / (|menu| as real)
  }

  lemma {:induction false} SumOfBounds(menu: seq<MenuItem>, f: MenuItem -> real, lo: real, hi: real)
    requires forall i :: 0 <= i < |menu| ==> lo <= f(menu[i]) <= hi
    ensures (|menu| as real) * lo <= SumOf(menu, f) <= (|menu| as real) * hi
  {
    if |menu| > 0 {
      SumOfBounds(menu[..|menu| - 1], f, lo, hi);
    }
  }

  /** A guarded average is 0 for an empty menu and otherwise lies within the bounds of its values. */
  lemma GuardedMeanBounds(menu: seq<MenuItem>, f: MenuItem -> real, lo: real, hi: real)
    requires forall i :: 0 <= i < |menu| ==> lo <= f(menu[i]) <= hi
    ensures |menu| == 0 ==> GuardedMean(menu, f) == 0.0
    ensures |menu| > 0 ==> lo <= GuardedMean(menu, f) <= hi
  {
    if |menu| > 0 {
      SumOfBounds(menu, f, lo, hi);
      var n := |menu| as real;
      assert SumOf(menu, f) / n >= lo by {
        assert SumOf(menu, f) >= lo * n;
      }
      assert SumOf(menu, f) / n <= hi by {
        assert SumOf(menu, f) <= hi * n;
      }
    }
  }

  /** The page's KPI cards. */
  datatype MenuKpis = MenuKpis(totalItems: nat, avgMargin: real, avgFoodCost: real, starsCount: nat)

  function MenuKpisOf(menu: seq<MenuItem>): MenuKpis {
    MenuKpis(|menu|, GuardedMean(menu, Margin), GuardedMean(menu, FoodCost), StarsCount(menu))
  }

  // ---------------------------------------------------------------------
  // Menu-engineering matrix

  datatype Quadrant = Star | Plowhorse | Puzzle | Dog

  /** Each quadrant is one combination of above-or-below average popularity and margin. */
  function QuadrantOf(m: MenuItem, avgPop: real, avgMargin: real): (q: Quadrant)
    ensures q == Star <==> Popularity(m) >= avgPop && Margin(m) >= avgMargin
    ensures q == Plowhorse <==> Popularity(m) >= avgPop && Margin(m) < avgMargin
    ensures q == Puzzle <==> Popularity(m) < avgPop && Margin(m) >= avgMargin
    ensures q == Dog <==> Popularity(m) < avgPop && Margin(m) < avgMargin
  {
    var pop := m.popularityScore;
    var margin := m.price - m.cost;
    if pop >= avgPop && margin >= avgMargin then Star
    else if pop >= avgPop && margin < avgMargin then Plowhorse
    else if pop < avgPop && margin >= avgMargin then Puzzle
    else Dog
  }

  function InQuadrant(q: Quadrant, avgPop: real, avgMargin: real): MenuItem -> bool {
    (m: MenuItem) => QuadrantOf(m, avgPop, avgMargin) == q
  }

  /** The names a quadrant lists. */
  function QuadrantNames(menu: seq<MenuItem>, q: Quadrant, avgPop: real, avgMargin: real): seq<string> {
    ItemNames(Filter(menu, InQuadrant(q, avgPop, avgMargin)))
  }

  datatype Matrix = Matrix(stars: seq<string>, plowhorses: seq<string>, puzzles: seq<string>, dogs: seq<string>)

  /** The quadrant lists of the whole menu against the given averages. */
  function MatrixOf(menu: seq<MenuItem>, avgPop: real, avgMargin: real): Matrix {
    Matrix(QuadrantNames(menu, Star, avgPop, avgMargin), QuadrantNames(menu, Plowhorse, avgPop, avgMargin),
           QuadrantNames(menu, Puzzle, avgPop, avgMargin), QuadrantNames(menu, Dog, avgPop, avgMargin))
  }

  /** One item appended to the list of its quadrant. */
  function Place(mx: Matrix, m: MenuItem, avgPop: real, avgMargin: real): Matrix {
    match QuadrantOf(m, avgPop, avgMargin)
    case Star => mx.(stars := mx.stars + [m.name])
    case Plowhorse => mx.(plowhorses := mx.plowhorses + [m.name])
    case Puzzle => mx.(puzzles := mx.puzzles + [m.name])
    case Dog => mx.(dogs := mx.dogs + [m.name])
  }

  lemma ItemNamesAppend(xs: seq<MenuItem>, ys: seq<MenuItem>)
    ensures ItemNames(xs + ys) == ItemNames(xs) + ItemNames(ys)
  {
  }

  lemma QuadrantStep(menu: seq<MenuItem>, i: nat, q: Quadrant, avgPop: real, avgMargin: real)
    requires i < |menu|
    ensures QuadrantNames(menu[..i + 1], q, avgPop, avgMargin)
         == QuadrantNames(menu[..i], q, avgPop, avgMargin)
            + (if QuadrantOf(menu[i], avgPop, avgMargin) == q then [menu[i].name] else [])
  {
    var p := InQuadrant(q, avgPop, avgMargin);
    assert menu[..i + 1][..i] == menu[..i];
    var tail := if p(menu[i]) then [menu[i]] else [];
    assert Filter(menu[..i + 1], p) == Filter(menu[..i], p) + tail;
    ItemNamesAppend(Filter(menu[..i], p), tail);
  }

  lemma MatrixStep(menu: seq<MenuItem>, i: nat, avgPop: real, avgMargin: real)
    requires i < |menu|
    ensures MatrixOf(menu[..i + 1], avgPop, avgMargin) == Place(MatrixOf(menu[..i], avgPop, avgMargin), menu[i], avgPop, avgMargin)
  {
    QuadrantStep(menu, i, Star, avgPop, avgMargin);
    QuadrantStep(menu, i, Plowhorse, avgPop, avgMargin);
    QuadrantStep(menu, i, Puzzle, avgPop, avgMargin);
    QuadrantStep(menu, i, Dog, avgPop, avgMargin);
  }

  /**
   * show_menu_engineering's loop: every item's name goes to the list of its
   * quadrant.
   */
  method PlaceAll(menu: seq<MenuItem>, avgPopularity: real, avgMargin: real) returns (mx: Matrix)
    ensures mx == MatrixOf(menu, avgPopularity, avgMargin)
  {
    mx := Matrix([], [], [], []);
    var i := 0;
    while i < |menu|
      invariant 0 <= i <= |menu|
      invariant mx == MatrixOf(menu[..i], avgPopularity, avgMargin)
    {
      var item := menu[i];
      var margin := item.price - item.cost;
      var pop := item.popularityScore;
      MatrixStep(menu, i, avgPopularity, avgMargin);
      if pop >= avgPopularity && margin >= avgMargin {
        mx := mx.(stars := mx.stars + [item.name]);
      } else if pop >= avgPopularity && margin < avgMargin {
        mx := mx.(plowhorses := mx.plowhorses + [item.name]);
      } else if pop < avgPopularity && margin >= avgMargin {
        mx := mx.(puzzles := mx.puzzles + [item.name]);
      } else {
        mx := mx.(dogs := mx.dogs + [item.name]);
      }
      i := i + 1;
    }
    assert menu[..|menu|] == menu;
  }

  /** The matrix against the menu's average popularity and margin. */
  method EngineeringMatrix(menu: seq<MenuItem>) returns (mx: Matrix)
    requires |menu| > 0
    ensures mx == MatrixOf(menu, MenuMean(menu, Popularity), MenuMean(menu, Margin))
  {
    var avgPopularity := SumOf(menu, Popularity) / (|menu| as real);
    var avgMargin := SumOf(menu, Margin) / (|menu| as real);
    mx := PlaceAll(menu, avgPopularity, avgMargin);
  }

  lemma {:induction false} QuadrantCounts(menu: seq<MenuItem>, avgPop: real, avgMargin: real)
    ensures CountOf(menu, InQuadrant(Star, avgPop, avgMargin)) + CountOf(menu, InQuadrant(Plowhorse, avgPop, avgMargin))
          + CountOf(menu, InQuadrant(Puzzle, avgPop, avgMargin)) + CountOf(menu, InQuadrant(Dog, avgPop, avgMargin)) == |menu|
  {
    if |menu| > 0 {
      QuadrantCounts(menu[..|menu| - 1], avgPop, avgMargin);
    }
  }

  /** Every item lands in exactly one quadrant: the four lists together are as long as the menu. */
  lemma MatrixPartition(menu: seq<MenuItem>, avgPop: real, avgMargin: real)
    ensures var mx := MatrixOf(menu, avgPop, avgMargin);
      |mx.stars| + |mx.plowhorses| + |mx.puzzles| + |mx.dogs| == |menu|
  {
    QuadrantCounts(menu, avgPop, avgMargin);
    CountOfIsFilterLength(menu, InQuadrant(Star, avgPop, avgMargin));
    CountOfIsFilterLength(menu, InQuadrant(Plowhorse, avgPop, avgMargin));
    CountOfIsFilterLength(menu, InQuadrant(Puzzle, avgPop, avgMargin));
    CountOfIsFilterLength(menu, InQuadrant(Dog, avgPop, avgMargin));
  }

  lemma {:induction false} CountSameRule(menu: seq<MenuItem>, avgPop: real, avgMar: real)
    ensures CountOf(menu, (m: MenuItem) => m.popularityScore >= avgPop && (m.price - m.cost) >= avgMar)
         == |Filter(menu, InQuadrant(Star, avgPop, avgMar))|
  {
    if |menu| > 0 {
      CountSameRule(menu[..|menu| - 1], avgPop, avgMar);
    }
  }

  /**
   * The stars KPI: items at or above both averages, with the guarded
   * averages. It never exceeds the menu, and on a non-empty menu it counts
   * exactly the items the matrix lists as stars.
   */
  function StarsCount(menu: seq<MenuItem>): (n: nat)
    ensures n <= |menu|
    ensures |menu| > 0 ==> n == |MatrixOf(menu, MenuMean(menu, Popularity), MenuMean(menu, Margin)).stars|
  {
    var avgPop := GuardedMean(menu, Popularity);
    var avgMar := GuardedMean(menu, Margin);
    CountOfBound(menu, (m: MenuItem) => m.popularityScore >= avgPop && (m.price - m.cost) >= avgMar);
    CountSameRule(menu, avgPop, avgMar);
    CountOf(menu, (m: MenuItem) => m.popularityScore >= avgPop && (m.price - m.cost) >= avgMar)
  }

  /**
   * The KPI cards: an empty menu shows zero averages and no stars; otherwise
   * the average margin and food cost lie between the smallest and largest
   * item's, and the stars are at most the whole menu.
   */
  lemma MenuKpisFacts(menu: seq<MenuItem>, loMargin: real, hiMargin: real, loCost: real, hiCost: real)
    requires forall i :: 0 <= i < |menu| ==> loMargin <= Margin(menu[i]) <= hiMargin
    requires forall i :: 0 <= i < |menu| ==> loCost <= FoodCost(menu[i]) <= hiCost
    ensures var k := MenuKpisOf(menu);
      && k.totalItems == |menu|
      && k.starsCount <= |menu|
      && (|menu| == 0 ==> k.avgMargin == 0.0 && k.avgFoodCost == 0.0 && k.starsCount == 0)
      && (|menu| > 0 ==> loMargin <= k.avgMargin <= hiMargin && loCost <= k.avgFoodCost <= hiCost)
  {
    GuardedMeanBounds(menu, Margin, loMargin, hiMargin);
    GuardedMeanBounds(menu, FoodCost, loCost, hiCost);
  }

  // ---------------------------------------------------------------------
  // Recommendations

  datatype Severity = Critical | High | Medium

  /** Items whose food cost is above 35%, in menu order. */
  function HighCost(menu: seq<MenuItem>): (r: seq<MenuItem>)
    ensures forall m :: m in r <==> m in menu && m.foodCostPct > 35.0
  {
    FilterMembers(menu, (m: MenuItem) => m.foodCostPct > 35.0);
    Filter(menu, (m: MenuItem) => m.foodCostPct > 35.0)
  }

  /** A high-cost item is critical above 45%. */
  function CostSeverity(m: MenuItem): Severity {
    if m.foodCostPct > 45.0 then Critical else High
  }

  /** Active items with popularity below 0.65, in menu order. */
  function LowPopularity(menu: seq<MenuItem>): (r: seq<MenuItem>)
    ensures forall m :: m in r <==> m in menu && m.popularityScore < 0.65 && m.isActive
  {
    FilterMembers(menu, (m: MenuItem) => m.popularityScore < 0.65 && m.isActive);
    Filter(menu, (m: MenuItem) => m.popularityScore < 0.65 && m.isActive)
  }

  /** A low-popularity item with a margin above 20 is worth featuring; otherwise it is a removal candidate. */
  function PopularitySeverity(m: MenuItem): Severity {
    if m.price - m.cost > 20.0 then Medium else Critical
  }

  /**
   * The recommendation severities: a listed high-cost item is critical
   * exactly above 45%, and a listed low-popularity item is medium exactly
   * when its margin is above 20, critical otherwise.
   */
  lemma RecommendationRules(menu: seq<MenuItem>)
    ensures forall m :: m in HighCost(menu) ==> m.foodCostPct > 35.0 && (CostSeverity(m) == Critical <==> m.foodCostPct > 45.0)
    ensures forall m :: m in LowPopularity(menu) ==>
      && (PopularitySeverity(m) == Medium <==> m.price - m.cost > 20.0)
      && (PopularitySeverity(m) == Critical <==> m.price - m.cost <= 20.0)
  {
  }

  lemma {:induction false} SameAsPlowhorses(menu: seq<MenuItem>, avgPop: real, avgMar: real)
    ensures Filter(menu, (m: MenuItem) => m.popularityScore >= avgPop && (m.price - m.cost) < avgMar)
         == Filter(menu, InQuadrant(Plowhorse, avgPop, avgMar))
  {
    if |menu| > 0 {
      SameAsPlowhorses(menu[..|menu| - 1], avgPop, avgMar);
    }
  }

  /** Popular items with a below-average margin: exactly the plowhorses, in menu order. */
  function PricingOpportunities(menu: seq<MenuItem>): (r: seq<MenuItem>)
    requires |menu| > 0
    ensures ItemNames(r) == MatrixOf(menu, MenuMean(menu, Popularity), MenuMean(menu, Margin)).plowhorses
    ensures forall m :: m in r ==> m in menu
  {
    var avgPop := MenuMean(menu, Popularity);
    var avgMar := MenuMean(menu, Margin);
    SameAsPlowhorses(menu, avgPop, avgMar);
    Filter(menu, (m: MenuItem) => m.popularityScore >= avgPop && (m.price - m.cost) < avgMar)
  }

  // ---------------------------------------------------------------------
  // Top performers

  /**
   * The five items with the largest daily profit contribution, largest
   * first: at most five items, all from the menu, and an item left out
   * contributes no more than the last one shown.
   */
  function TopPerformers(menu: seq<MenuItem>): (top: seq<MenuItem>)
    ensures |top| == IMin(5, |menu|)
    ensures forall i, j :: 0 <= i < j < |top| ==> DailyProfit(top[i]) >= DailyProfit(top[j])
    ensures multiset(top) <= multiset(menu)
    ensures forall m :: m in menu && m !in top ==> DailyProfit(m) <= DailyProfit(top[|top| - 1])
  {
    TopPrefixFacts(menu);
    FirstN(Sorting.SortByDesc(menu, DailyProfit), 5)
  }

  /** In a list sorted by descending profit, an element outside the first n earns no more than the n-th. */
  lemma BelowPrefix(sorted: seq<MenuItem>, n: nat, m: MenuItem)
    requires 0 < n <= |sorted|
    requires forall i, j :: 0 <= i < j < |sorted| ==> DailyProfit(sorted[i]) >= DailyProfit(sorted[j])
    requires m in sorted && m !in sorted[..n]
    ensures DailyProfit(m) <= DailyProfit(sorted[n - 1])
  {
    var k :| 0 <= k < |sorted| && sorted[k] == m;
  }

  lemma PrefixSubmultiset<T>(s: seq<T>, n: nat)
    requires n <= |s|
    ensures multiset(s[..n]) <= multiset(s)
  {
    assert s == s[..n] + s[n..];
  }

  lemma SameElements<T>(s: seq<T>, t: seq<T>)
    requires multiset(s) == multiset(t)
    ensures forall x :: x in s <==> x in t
  {
    forall x ensures x in s <==> x in t {
      assert x in s <==> x in multiset(s);
      assert x in t <==> x in multiset(t);
    }
  }

  /** The first n of a list sorted by descending profit: facts about the prefix alone. */
  lemma SortedPrefix(sorted: seq<MenuItem>, n: nat)
    requires 0 < n <= |sorted|
    requires forall i, j :: 0 <= i < j < |sorted| ==> DailyProfit(sorted[i]) >= DailyProfit(sorted[j])
    ensures forall m :: m in sorted && m !in sorted[..n] ==> DailyProfit(m) <= DailyProfit(sorted[n - 1])
  {
    forall m | m in sorted && m !in sorted[..n]
      ensures DailyProfit(m) <= DailyProfit(sorted[n - 1])
    {
      BelowPrefix(sorted, n, m);
    }
  }

  /** The first five of the menu sorted by descending contribution. */
  lemma TopPrefixFacts(menu: seq<MenuItem>)
    ensures var top := FirstN(Sorting.SortByDesc(menu, DailyProfit), 5);
      && |top| == IMin(5, |menu|)
      && (forall i, j :: 0 <= i < j < |top| ==> DailyProfit(top[i]) >= DailyProfit(top[j]))
      && multiset(top) <= multiset(menu)
      && (forall m :: m in menu && m !in top ==> DailyProfit(m) <= DailyProfit(top[|top| - 1]))
  {
    var sorted := Sorting.SortByDesc(menu, DailyProfit);
    assert |sorted| == |menu| && multiset(sorted) == multiset(menu)
      && forall i, j :: 0 <= i < j < |sorted| ==> DailyProfit(sorted[i]) >= DailyProfit(sorted[j])
    by {
      Sorting.SortByDescCorrect(menu, DailyProfit);
    }
    var top := FirstN(sorted, 5);
    assert top == sorted[..|top|];
    PrefixSubmultiset(sorted, |top|);
    SameElements(menu, sorted);
    if |top| > 0 {
      SortedPrefix(sorted, |top|);
    }
  }
}
