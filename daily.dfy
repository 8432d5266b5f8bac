/**
 * The daily summary rows that feed the forecast engine and the analytics
 * page (one row per trading day), and the calendar arithmetic the engine
 * applies to their dates. A date is a day number counted from 1970-01-01.
 */
module Daily {
  import opened Common

  datatype DailySummary = DailySummary(
    date: int,
    dayOfWeek: string,
    totalCovers: int,
    dineIn: int,
    delivery: int,
    takeaway: int,
    totalRevenue: real,
    avgCheck: real,
    foodWasteKg: Option<real>,
    foodCostPct: Option<real>,
    laborCostPct: Option<real>,
    itemOrders: seq<(string, int)>)

  /** Python's date.weekday(): Monday is 0; 1970-01-01 was a Thursday. */
  function Weekday(day: int): (w: nat)
    ensures w < 7
  {
    (day + 3) % 7
  }

  /** The month (1-12) of a day number, by the civil-from-days conversion. */
  function Month(day: int): (m: nat)
    ensures 1 <= m <= 12
  {
    var z := day + 719468;
    var era := z / 146097;
    var doe := z - era * 146097;
    assert 0 <= doe < 146097;
    var yoe := (doe - doe / 1460 + doe / 36524 - doe / 146096) / 365;
    var doy := doe - (365 * yoe + yoe / 4 - yoe / 100);
    assert 0 <= doy <= 365 by { CivilDayOfYear(doe); }
    var mp := (5 * doy + 2) / 153;
    if mp < 10 then mp + 3 else mp - 9
  }

  /** Within a 400-year era the civil-from-days day of the (March-based) year lies in 0..365. */
  lemma CivilDayOfYear(doe: int)
    requires 0 <= doe < 146097
    ensures var yoe := (doe - doe / 1460 + doe / 36524 - doe / 146096) / 365;
            0 <= doe - (365 * yoe + yoe / 4 - yoe / 100) <= 365
  {
    if doe == 146096 {
      assert doe / 1460 == 100 && doe / 36524 == 4 && doe / 146096 == 1;
      assert 145999 / 365 == 399 && 399 / 4 == 99 && 399 / 100 == 3;
    } else {
      CivilDayOfYearInEra(doe);
    }
  }

  lemma CivilDayOfYearInEra(doe: int)
    requires 0 <= doe < 146096
    ensures var yoe := (doe - doe / 1460 + doe / 36524 - doe / 146096) / 365;
            0 <= doe - (365 * yoe + yoe / 4 - yoe / 100) <= 365
  {
    // doe = 36524 b + 1461 q + r: century b, four-year cycle q, day r of the cycle
    var b := doe / 36524;
    var doc := doe - 36524 * b;
    var q := doc / 1461;
    var r := doc - 1461 * q;
    assert 0 <= b <= 3 && 0 <= q <= 24 && 0 <= r <= 1460;
    DivideExactly(doe, 36524, b, doc);
    CivilYearOfCycle(b, q, r);
  }

  /** The same bound for doe written as century b, four-year cycle q and day r of the cycle. */
  lemma CivilYearOfCycle(b: int, q: int, r: int)
    requires 0 <= b <= 3 && 0 <= q <= 24 && 0 <= r <= 1460 && 36524 * b + 1461 * q + r < 146096
    requires (36524 * b + 1461 * q + r) / 36524 == b
    ensures var doe := 36524 * b + 1461 * q + r;
            var yoe := (doe - doe / 1460 + doe / 36524 - doe / 146096) / 365;
            0 <= doe - (365 * yoe + yoe / 4 - yoe / 100) <= 365
  {
    var doe := 36524 * b + 1461 * q + r;
    var e := (24 * b + q + r) / 1460;
    CivilLeapCorrection(b, q, r);
    assert doe - doe / 1460 + doe / 36524 - doe / 146096 == 365 * (100 * b + 4 * q) + (r - e);
    CivilYearBound(b, q, r, e);
  }

  /** doe / 1460 is 25 b + q plus one exactly on the last day of a four-year cycle that closes a century's drift. */
  lemma CivilLeapCorrection(b: int, q: int, r: int)
    requires 0 <= b <= 3 && 0 <= q <= 24 && 0 <= r <= 1460 && 36524 * b + 1461 * q + r < 146096
    ensures var e := (24 * b + q + r) / 1460;
      && 0 <= e <= 1 && (r == 0 ==> e == 0) && (r == 1460 ==> e == 1)
      && (36524 * b + 1461 * q + r) / 1460 == 25 * b + q + e
      && (36524 * b + 1461 * q + r) / 146096 == 0
  {
    var e := (24 * b + q + r) / 1460;
    DivideExactly(36524 * b + 1461 * q + r, 1460, 25 * b + q + e, 24 * b + q + r - 1460 * e);
  }

  lemma CivilYearBound(b: int, q: int, r: int, e: int)
    requires 0 <= b <= 3 && 0 <= q <= 24 && 0 <= r <= 1460 && 0 <= e <= 1
    requires (r == 0 ==> e == 0) && (r == 1460 ==> e == 1)
    ensures var yoe := (365 * (100 * b + 4 * q) + (r - e)) / 365;
            0 <= 36524 * b + 1461 * q + r - (365 * yoe + yoe / 4 - yoe / 100) <= 365
  {
    var k := (r - e) / 365;
    assert 0 <= k <= 3;
    DivideExactly(365 * (100 * b + 4 * q) + (r - e), 365, 100 * b + 4 * q + k, r - e - 365 * k);
    var yoe := 100 * b + 4 * q + k;
    DivideExactly(yoe, 4, 25 * b + q, k);
    DivideExactly(yoe, 100, b, 4 * q + k);
  }

  lemma DivideExactly(x: int, d: int, qt: int, rm: int)
    requires 0 < d && x == d * qt + rm && 0 <= rm < d
    ensures x / d == qt
  {
    var q0 := x / d;
    var r0 := x % d;
    assert x == d * q0 + r0;
    assert d * (qt - q0) == r0 - rm;
    if qt > q0 {
      MulAtLeast(d, qt - q0);
      assert false;
    } else if qt < q0 {
      MulAtLeast(d, q0 - qt);
      assert false;
    }
  }

  lemma MulAtLeast(d: int, n: int)
    requires d > 0 && n >= 1
    ensures d * n >= d
  {
  }

  const DayNames: seq<string> := ["Monday", "Tuesday", "Wednesday", "Thursday", "Friday", "Saturday", "Sunday"]
  const ShortDayNames: seq<string> := ["Mon", "Tue", "Wed", "Thu", "Fri", "Sat", "Sun"]

  /** strftime("%A") of a weekday. */
  function DayName(w: int): string
    requires 0 <= w < 7
  {
    DayNames[w]
  }

  /** Weekdays repeat every seven days. */
  lemma WeekdayPeriodic(day: int)
    ensures Weekday(day + 7) == Weekday(day)
    ensures Weekday(day + 1) == (Weekday(day) + 1) % 7
  {
  }

  /** 1970-01-01 was a Thursday in January; 1971-01-01 is in January again. */
  lemma EpochAnchor()
    ensures Weekday(0) == 3 && Month(0) == 1 && Month(365) == 1
  {
    assert 719468 / 146097 == 4 && 719833 / 146097 == 4;
    assert 135080 / 1460 == 92 && 135080 / 36524 == 3 && 135080 / 146096 == 0;
    assert 135445 / 1460 == 92 && 135445 / 36524 == 3 && 135445 / 146096 == 0;
    assert 134991 / 365 == 369 && 135356 / 365 == 370;
    assert 369 / 4 == 92 && 369 / 100 == 3 && 370 / 4 == 92 && 370 / 100 == 3;
    assert 1532 / 153 == 10;
  }

  /** 1970-02-28 is still February; 1970-03-01, a Sunday, starts March. */
  lemma MarchAnchor()
    ensures Month(58) == 2 && Month(59) == 3 && Weekday(59) == 6
  {
    assert 719526 / 146097 == 4 && 719527 / 146097 == 4;
    assert 135138 / 1460 == 92 && 135138 / 36524 == 3 && 135138 / 146096 == 0;
    assert 135139 / 1460 == 92 && 135139 / 36524 == 3 && 135139 / 146096 == 0;
    assert 135049 / 365 == 369 && 135050 / 365 == 370;
    assert 369 / 4 == 92 && 369 / 100 == 3 && 370 / 4 == 92 && 370 / 100 == 3;
    assert 1822 / 153 == 11 && 2 / 153 == 0;
  }

  // Row accessors, the dictionary lookups the services make.

  function CoversOf(d: DailySummary): real { d.totalCovers as real }
  function RevenueOf(d: DailySummary): real { d.totalRevenue }
  function CheckOf(d: DailySummary): real { d.avgCheck }
  function WeekdayOfRow(d: DailySummary): nat { Weekday(d.date) }
  function MonthOfRow(d: DailySummary): nat { Month(d.date) }
  function DayNameOfRow(d: DailySummary): string { d.dayOfWeek }

  /** d.get('food_waste_kg', 0) */
  function WasteOf(d: DailySummary): real {
    if d.foodWasteKg.Some? then d.foodWasteKg.value else 0.0
  }

  /** d.get('food_cost_pct', 30) */
  function FoodCostOf(d: DailySummary): real {
    if d.foodCostPct.Some? then d.foodCostPct.value else 30.0
  }

  /** d.get('labor_cost_pct', 25) */
  function LaborCostOf(d: DailySummary): real {
    if d.laborCostPct.Some? then d.laborCostPct.value else 25.0
  }
}
