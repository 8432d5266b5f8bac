/**
 * The rules of the labour scheduling page: the schedule's cost figures,
 * the per-weekday staffing totals, the recommended head count for a
 * forecast day and the classification of each of the next seven days as
 * optimal, overstaffed or understaffed.
 */
module Labor {
  import opened Common
  import opened Daily
  import opened Core

  /** One scheduled shift; the date is a day number. */
  datatype Shift = Shift(
    uid: string,
    staffName: string,
    role: string,
    shiftDate: int,
    shiftStart: string,
    shiftEnd: string,
    hours: real,
    hourlyRate: real,
    isPeak: bool)

  function Hours(s: Shift): real { s.hours }
  function Cost(s: Shift): real { s.hours * s.hourlyRate }
  function IsPeak(s: Shift): bool { s.isPeak }
  function IsOffPeak(s: Shift): bool { !s.isPeak }

  // ---------------------------------------------------------------------
  // Headline figures

  datatype LaborKpis = LaborKpis(totalHours: real, totalCost: real, uniqueStaff: nat, peakDays: nat, avgCostPerHour: real)

  /** len(set(s.staff_name for s in schedule)) */
  function StaffCount(schedule: seq<Shift>): (n: nat)
    ensures n == 0 <==> |schedule| == 0
  {
    var staff := set i | 0 <= i < |schedule| :: schedule[i].staffName;
    assert |schedule| > 0 ==> schedule[0].staffName in staff;
    |staff|
  }

  /** len(set(s.shift_date for s in schedule if s.is_peak)) */
  function PeakDayCount(schedule: seq<Shift>): (n: nat)
    ensures n == 0 <==> forall i :: 0 <= i < |schedule| ==> !schedule[i].isPeak
  {
    var peakDates := set i | 0 <= i < |schedule| && schedule[i].isPeak :: schedule[i].shiftDate;
    assert forall i :: 0 <= i < |schedule| && schedule[i].isPeak ==> schedule[i].shiftDate in peakDates;
    |peakDates|
  }

  /**
   * The summary cards of the page: total hours and cost, distinct staff
   * (none only for an empty schedule) and peak dates (none only without peak
   * shifts), and the average hourly cost, 0 without hours.
   */
  function Kpis(schedule: seq<Shift>): (k: LaborKpis)
    ensures k.totalHours == SumOf(schedule, Hours) && k.totalCost == SumOf(schedule, Cost)
    ensures k.totalHours <= 0.0 ==> k.avgCostPerHour == 0.0
    ensures k.totalHours > 0.0 ==> k.avgCostPerHour == k.totalCost / k.totalHours
    ensures k.uniqueStaff == 0 <==> |schedule| == 0
    ensures k.peakDays == 0 <==> forall i :: 0 <= i < |schedule| ==> !schedule[i].isPeak
  {
    var totalHours := SumOf(schedule, Hours);
    var totalCost := SumOf(schedule, Cost);
    LaborKpis(totalHours, totalCost, StaffCount(schedule), PeakDayCount(schedule),
              if totalHours > 0.0 then totalCost / totalHours else 0.0)
  }

  /** Weekly hours split into peak and non-peak hours. */
  function PeakHours(schedule: seq<Shift>): real { SumOf(Filter(schedule, IsPeak), Hours) }

  /** Non-peak hours, computed as the total less the peak hours, are the hours of the shifts that are not peak shifts. */
  function NonPeakHours(schedule: seq<Shift>): (h: real)
    ensures h == SumOf(Filter(schedule, IsOffPeak), Hours)
  {
    SumOfFilter(schedule, IsPeak, Hours);
    SumOfFilter(schedule, IsOffPeak, Hours);
    MaskedComplement(schedule, Hours);
    SumOf(schedule, Hours) - PeakHours(schedule)
  }

  /** The masks of a condition and its negation add up to the function. */
  lemma {:induction false} MaskedComplement(xs: seq<Shift>, f: Shift -> real)
    ensures SumOf(xs, Masked(IsPeak, f)) + SumOf(xs, Masked(IsOffPeak, f)) == SumOf(xs, f)
  {
    if |xs| > 0 {
      MaskedComplement(xs[..|xs| - 1], f);
    }
  }

  /** With no negative shift length the peak and non-peak hours both lie between 0 and the total. */
  lemma PeakSplitBounds(schedule: seq<Shift>)
    requires forall i :: 0 <= i < |schedule| ==> schedule[i].hours >= 0.0
    ensures 0.0 <= PeakHours(schedule) <= SumOf(schedule, Hours)
    ensures 0.0 <= NonPeakHours(schedule) <= SumOf(schedule, Hours)
  {
    SumOfFilter(schedule, IsPeak, Hours);
    SumOfFilter(schedule, IsOffPeak, Hours);
    MaskedComplement(schedule, Hours);
    MaskedNonnegative(schedule, IsPeak);
    MaskedNonnegative(schedule, IsOffPeak);
  }

  lemma {:induction false} MaskedNonnegative(xs: seq<Shift>, p: Shift -> bool)
    requires forall i :: 0 <= i < |xs| ==> xs[i].hours >= 0.0
    ensures SumOf(xs, Masked(p, Hours)) >= 0.0
  {
    if |xs| > 0 {
      MaskedNonnegative(xs[..|xs| - 1], p);
    }
  }

  /** Cost is a weighted sum of rates: with rates in [lo, hi] the average hourly cost is in [lo, hi]. */
  lemma {:induction false} CostBounds(xs: seq<Shift>, lo: real, hi: real)
    requires forall i :: 0 <= i < |xs| ==> xs[i].hours >= 0.0 && lo <= xs[i].hourlyRate <= hi
    ensures lo * SumOf(xs, Hours) <= SumOf(xs, Cost) <= hi * SumOf(xs, Hours)
  {
    if |xs| > 0 {
      var n := |xs| - 1;
      CostBounds(xs[..n], lo, hi);
      var a := SumOf(xs[..n], Hours);
      var c := SumOf(xs[..n], Cost);
      var h := xs[n].hours;
      var r := xs[n].hourlyRate;
      assert SumOf(xs, Cost) == c + h * r;
      assert SumOf(xs, Hours) == a + h;
      WeightedStep(a, c, h, r, lo, hi);
    }
  }

  /** Adding hours h at a rate in [lo, hi] keeps a cost within [lo, hi] times the hours. */
  lemma WeightedStep(a: real, c: real, h: real, r: real, lo: real, hi: real)
    requires lo * a <= c <= hi * a && h >= 0.0 && lo <= r <= hi
    ensures lo * (a + h) <= c + h * r <= hi * (a + h)
  {
    assert (r - lo) * h >= 0.0;
    assert (hi - r) * h >= 0.0;
  }

  /** The average hourly cost is 0 without hours and otherwise lies within the range of the rates. */
  lemma AvgCostPerHourBounds(schedule: seq<Shift>, lo: real, hi: real)
    requires forall i :: 0 <= i < |schedule| ==> schedule[i].hours >= 0.0 && lo <= schedule[i].hourlyRate <= hi
    ensures SumOf(schedule, Hours) == 0.0 ==> Kpis(schedule).avgCostPerHour == 0.0
    ensures SumOf(schedule, Hours) > 0.0 ==> lo <= Kpis(schedule).avgCostPerHour <= hi
  {
    var k := Kpis(schedule);
    RateMeanBounds(schedule, lo, hi);
    assert k.totalHours == SumOf(schedule, Hours) && k.totalCost == SumOf(schedule, Cost);
  }

  /** With rates in [lo, hi] and positive hours, total cost over total hours lies in [lo, hi]. */
  lemma RateMeanBounds(schedule: seq<Shift>, lo: real, hi: real)
    requires forall i :: 0 <= i < |schedule| ==> schedule[i].hours >= 0.0 && lo <= schedule[i].hourlyRate <= hi
    ensures SumOf(schedule, Hours) > 0.0 ==> lo <= SumOf(schedule, Cost) / SumOf(schedule, Hours) <= hi
  {
    CostBounds(schedule, lo, hi);
    if SumOf(schedule, Hours) > 0.0 {
      QuotientBounds(SumOf(schedule, Cost), SumOf(schedule, Hours), lo, hi);
    }
  }

  /** lo*h <= c <= hi*h with h > 0 puts c/h in [lo, hi]. */
  lemma QuotientBounds(c: real, h: real, lo: real, hi: real)
    requires h > 0.0 && lo * h <= c <= hi * h
    ensures lo <= c / h <= hi
  {
    var q := c / h;
    assert c == q * h;
  }

  // ---------------------------------------------------------------------
  // Staffing per weekday

  /** What the schedule puts on one weekday. */
  datatype DayLoad = DayLoad(hours: real, cost: real, staff: nat)

  /** strftime("%A") of the shift's date. */
  function ShiftDay(s: Shift): string { DayName(Weekday(s.shiftDate)) }

  /** by_date.get(day, zeros) */
  function LoadOf(m: map<string, DayLoad>, day: string): DayLoad {
    if day in m then m[day] else DayLoad(0.0, 0.0, 0)
  }

  /** One shift added to its weekday's totals. */
  function AddShift(m: map<string, DayLoad>, s: Shift): map<string, DayLoad> {
    m[ShiftDay(s) := WithShift(LoadOf(m, ShiftDay(s)), s)]
  }

  function WithShift(d: DayLoad, s: Shift): DayLoad {
    DayLoad(d.hours + s.hours, d.cost + s.hours * s.hourlyRate, d.staff + 1)
  }

  /** The per-weekday totals, accumulated over the shifts in turn. */
  function Loads(schedule: seq<Shift>): map<string, DayLoad> {
    if |schedule| == 0 then map[] else AddShift(Loads(schedule[..|schedule| - 1]), schedule[|schedule| - 1])
  }

  function OnDay(day: string): Shift -> bool {
    (s: Shift) => ShiftDay(s) == day
  }

  /**
   * A weekday's totals are the hours, cost and number of its shifts; a
   * weekday without shifts has all three at 0.
   */
  lemma {:induction false} LoadsPerDay(schedule: seq<Shift>, day: string)
    ensures LoadOf(Loads(schedule), day)
         == DayLoad(SumOf(schedule, Masked(OnDay(day), Hours)), SumOf(schedule, Masked(OnDay(day), Cost)),
                    CountOf(schedule, OnDay(day)))
  {
    if |schedule| > 0 {
      LoadsPerDay(schedule[..|schedule| - 1], day);
    }
  }

  /** The loop's in-place update of one weekday's entry is AddShift. */
  lemma AddShiftIsUpdate(m: map<string, DayLoad>, s: Shift, k: string, d: DayLoad)
    requires k == ShiftDay(s)
    requires d == WithShift(LoadOf(m, k), s)
    ensures AddShift(m, s) == m[k := d]
  {
  }

  /** The by_date loop of the optimisation tab. */
  method AccumulateByDay(schedule: seq<Shift>) returns (byDate: map<string, DayLoad>)
    ensures byDate == Loads(schedule)
  {
    byDate := map[];
    var i := 0;
    while i < |schedule|
      invariant 0 <= i <= |schedule|
      invariant byDate == Loads(schedule[..i])
    {
      assert schedule[..i + 1][..i] == schedule[..i];
      var s := schedule[i];
      var day := ShiftDay(s);
      var d := if day in byDate then byDate[day] else DayLoad(0.0, 0.0, 0);
      d := d.(hours := d.hours + s.hours);
      d := d.(cost := d.cost + s.hours * s.hourlyRate);
      d := d.(staff := d.staff + 1);
      AddShiftIsUpdate(byDate, s, day, d);
      byDate := byDate[day := d];
      i := i + 1;
    }
    assert schedule[..|schedule|] == schedule;
  }

  // ---------------------------------------------------------------------
  // Recommendations

  /** max(4, predicted_covers // 12): one member of staff per 12 covers, never fewer than 4. */
  function IdealStaff(predictedCovers: int): (n: int)
    ensures n >= 4
    ensures predictedCovers >= 48 ==> n == predictedCovers / 12
    ensures predictedCovers < 48 ==> n == 4
  {
    IMax(4, predictedCovers / 12)
  }

  datatype Staffing = Optimal | Overstaffed | Understaffed

  /** A day is optimal within one of the ideal, overstaffed above that band and understaffed below it. */
  function StaffingOf(staff: int, ideal: int): (s: Staffing)
    ensures s == Optimal <==> ideal - 1 <= staff <= ideal + 1
    ensures s == Overstaffed <==> staff > ideal + 1
    ensures s == Understaffed <==> staff < ideal - 1
  {
    if (if staff - ideal < 0 then ideal - staff else staff - ideal) <= 1 then Optimal
    else if staff > ideal then Overstaffed
    else Understaffed
  }

  /** The judgement of one forecast day against the schedule's head count on its weekday. */
  function Judge(byDate: map<string, DayLoad>, f: DemandForecast): Staffing {
    StaffingOf(LoadOf(byDate, f.dayOfWeek).staff, IdealStaff(f.predictedCovers))
  }

  function Judged(byDate: map<string, DayLoad>, s: Staffing): DemandForecast -> bool {
    (f: DemandForecast) => Judge(byDate, f) == s
  }

  /** Every day gets exactly one of the three judgements. */
  lemma {:induction false} JudgementPartition(byDate: map<string, DayLoad>, fs: seq<DemandForecast>)
    ensures CountOf(fs, Judged(byDate, Optimal)) + CountOf(fs, Judged(byDate, Overstaffed))
          + CountOf(fs, Judged(byDate, Understaffed)) == |fs|
  {
    if |fs| > 0 {
      JudgementPartition(byDate, fs[..|fs| - 1]);
    }
  }

  /** The score: the rounded percentage of optimal days, 0 when no day was judged. */
  function OptScore(optimal: nat, total: nat): int {
    if total > 0 then RoundInt((optimal as real / total as real) * 100.0) else 0
  }

  lemma OptScoreBounds(optimal: nat, total: nat)
    requires optimal <= total
    ensures 0 <= OptScore(optimal, total) <= 100
    ensures total > 0 && optimal == total ==> OptScore(optimal, total) == 100
    ensures optimal == 0 ==> OptScore(optimal, total) == 0
  {
    if total > 0 {
      var t := total as real;
      var f := optimal as real / t;
      FractionBounds(optimal as real, t);
      RoundIntMonotone(0.0, f * 100.0);
      RoundIntMonotone(f * 100.0, 100.0);
      assert RoundInt(100.0) == 100;
    }
  }

  /** A share a of a positive whole t, 0 <= a <= t, lies in [0, 1] and is 1 for the whole. */
  lemma FractionBounds(a: real, t: real)
    requires t > 0.0 && 0.0 <= a <= t
    ensures 0.0 <= a / t <= 1.0
    ensures a == t ==> a / t == 1.0
  {
    var f := a / t;
    assert f * t == a;
    assert (f - 1.0) * t == a - t;
  }

  datatype Optimization = Optimization(optimal: nat, overstaffed: nat, understaffed: nat, score: int)

  /** The day-by-day recommendation loop: each day's judgement counted once. */
  method CountJudgements(byDate: map<string, DayLoad>, week: seq<DemandForecast>)
    returns (optimal: nat, over: nat, under: nat)
    ensures optimal == CountOf(week, Judged(byDate, Optimal))
    ensures over == CountOf(week, Judged(byDate, Overstaffed))
    ensures under == CountOf(week, Judged(byDate, Understaffed))
  {
    optimal, over, under := 0, 0, 0;
    var i := 0;
    while i < |week|
      invariant 0 <= i <= |week|
      invariant optimal == CountOf(week[..i], Judged(byDate, Optimal))
      invariant over == CountOf(week[..i], Judged(byDate, Overstaffed))
      invariant under == CountOf(week[..i], Judged(byDate, Understaffed))
    {
      assert week[..i + 1][..i] == week[..i];
      var f := week[i];
      var sched := if f.dayOfWeek in byDate then byDate[f.dayOfWeek] else DayLoad(0.0, 0.0, 0);
      var ideal := IMax(4, f.predictedCovers / 12);
      var status := StaffingOf(sched.staff, ideal);
      assert status == Judge(byDate, f);
      if status == Understaffed {
        under := under + 1;
      } else if status == Overstaffed {
        over := over + 1;
      } else {
        optimal := optimal + 1;
      }
      i := i + 1;
    }
    assert week[..|week|] == week;
  }

  /**
   * show_optimization: the schedule's staff per weekday against the first
   * seven forecast days, every one of them counted once, and the score.
   */
  method JudgeWeek(schedule: seq<Shift>, forecasts: seq<DemandForecast>) returns (r: Optimization)
    ensures var week := FirstN(forecasts, 7);
      var byDate := Loads(schedule);
      && r.optimal == CountOf(week, Judged(byDate, Optimal))
      && r.overstaffed == CountOf(week, Judged(byDate, Overstaffed))
      && r.understaffed == CountOf(week, Judged(byDate, Understaffed))
      && r.optimal + r.overstaffed + r.understaffed == IMin(7, |forecasts|)
      && r.score == OptScore(r.optimal, r.optimal + r.overstaffed + r.understaffed)
      && 0 <= r.score <= 100
  {
    var byDate := AccumulateByDay(schedule);
    var week := forecasts[..IMin(7, |forecasts|)];
    var optimal, over, under := CountJudgements(byDate, week);
    JudgementPartition(byDate, week);
    var total := optimal + over + under;
    OptScoreBounds(optimal, total);
    r := Optimization(optimal, over, under, OptScore(optimal, total));
  }
}
