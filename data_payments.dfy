/**
 * The payment reports of the data service: the per-status statistics and
 * the revenue statistics with their per-status fee breakdown and the list of
 * recent transactions.
 */
module DataPayments {
  import opened Common
  import opened Store
  import Sorting
  import Payments

  /** The payments a report covers: the restaurant's, or all when no (or an empty) uid is given. */
  function Scoped(rows: seq<Payment>, r: Option<string>): seq<Payment> {
    if Present(r) then Filter(rows, (p: Payment) => p.restaurantUid == r.value) else rows
  }

  function HasStatus(s: PaymentStatus): Payment -> bool {
    (p: Payment) => p.status == s
  }

  function Amount(p: Payment): real { p.amount }
  function Fee(p: Payment): real { p.forkastFee }
  function SupplierAmount(p: Payment): real { p.supplierAmount }

  /** refund_amount or 0 */
  function RefundOrZero(p: Payment): real {
    if p.refundAmount.Some? then p.refundAmount.value else 0.0
  }

  // ---------------------------------------------------------------------
  // get_payment_stats

  datatype PaymentStats = PaymentStats(
    totalProcessed: real,
    totalRefunded: real,
    totalPending: real,
    totalForkastRevenue: real,
    totalSupplierPayouts: real,
    countSucceeded: nat,
    countFailed: nat,
    countPending: nat,
    countRefunded: nat)

  /**
   * get_payment_stats. The four counts and the processing payments, which no
   * count covers, make up the report's payments; so the counts sum to at most
   * the number of payments, with equality exactly when none is processing.
   */
  function GetPaymentStats(rows: seq<Payment>, r: Option<string>): (s: PaymentStats)
    ensures s.countSucceeded + s.countFailed + s.countPending + s.countRefunded
              + CountOf(Scoped(rows, r), HasStatus(Processing)) == |Scoped(rows, r)|
    ensures s.countSucceeded + s.countFailed + s.countPending + s.countRefunded <= |Scoped(rows, r)| <= |rows|
    ensures (s.countSucceeded + s.countFailed + s.countPending + s.countRefunded == |Scoped(rows, r)|)
              <==> CountOf(Scoped(rows, r), HasStatus(Processing)) == 0
  {
    var ps := Scoped(rows, r);
    StatusPartition(ps);
    PaymentStats(
      SumOf(Filter(ps, HasStatus(Succeeded)), Amount),
      SumOf(Filter(ps, HasStatus(Refunded)), RefundOrZero),
      SumOf(Filter(ps, HasStatus(Pending)), Amount),
      SumOf(Filter(ps, HasStatus(Succeeded)), Fee),
      SumOf(Filter(ps, HasStatus(Succeeded)), SupplierAmount),
      CountOf(ps, HasStatus(Succeeded)),
      CountOf(ps, HasStatus(Failed)),
      CountOf(ps, HasStatus(Pending)),
      CountOf(ps, HasStatus(Refunded)))
  }

  /** Every payment has exactly one of the five statuses. */
  lemma {:induction false} StatusPartition(ps: seq<Payment>)
    ensures CountOf(ps, HasStatus(Pending)) + CountOf(ps, HasStatus(Processing)) + CountOf(ps, HasStatus(Succeeded))
          + CountOf(ps, HasStatus(Failed)) + CountOf(ps, HasStatus(Refunded)) == |ps|
  {
    if |ps| > 0 {
      StatusPartition(ps[..|ps| - 1]);
    }
  }

  /** A sum of f is the sum of g plus the sum of h when f is g + h everywhere on xs. */
  lemma {:induction false} SumOfSplit<T>(xs: seq<T>, f: T -> real, g: T -> real, h: T -> real)
    requires forall i :: 0 <= i < |xs| ==> f(xs[i]) == g(xs[i]) + h(xs[i])
    ensures SumOf(xs, f) == SumOf(xs, g) + SumOf(xs, h)
  {
    if |xs| > 0 {
      SumOfSplit(xs[..|xs| - 1], f, g, h);
    }
  }

  /** A payment whose charged amount is the supplier amount plus the fee. */
  predicate SplitConsistent(p: Payment) {
    p.amount == p.supplierAmount + p.forkastFee
  }

  /** Every payment create_checkout inserts is split-consistent. */
  lemma CheckoutPaymentSplitConsistent(req: Payments.CheckoutRequest, uid: string, feePct: real, now: int)
    ensures SplitConsistent(Payments.PendingPayment(req, uid, feePct, now))
  {
    Payments.SplitFeeFacts(req.amount, feePct);
  }

  /** When the payments are split-consistent, the processed total is the fee revenue plus the supplier payouts. */
  lemma ProcessedIsRevenuePlusPayouts(rows: seq<Payment>, r: Option<string>)
    requires forall i :: 0 <= i < |rows| ==> SplitConsistent(rows[i])
    ensures var s := GetPaymentStats(rows, r);
      s.totalProcessed == s.totalForkastRevenue + s.totalSupplierPayouts
  {
    var ok := Filter(Scoped(rows, r), HasStatus(Succeeded));
    forall i | 0 <= i < |ok| ensures Amount(ok[i]) == Fee(ok[i]) + SupplierAmount(ok[i]) {
      assert ok[i] in Scoped(rows, r);
      assert ok[i] in rows;
    }
    SumOfSplit(ok, Amount, Fee, SupplierAmount);
  }

  // ---------------------------------------------------------------------
  // get_revenue_stats

  function CreatedKey(p: Payment): real { p.createdAt as real }

  /** The report's payments, newest first (equal times keep their table order). */
  function NewestFirst(rows: seq<Payment>, r: Option<string>): seq<Payment> {
    Sorting.SortByDesc(Scoped(rows, r), CreatedKey)
  }

  /** The fee recorded under status k, 0 when none is. */
  function FeeAt(m: map<PaymentStatus, real>, k: PaymentStatus): real {
    if k in m then m[k] else 0.0
  }

  /** setdefault(k, 0.0) followed by += v */
  function Accrue(m: map<PaymentStatus, real>, k: PaymentStatus, v: real): (r: map<PaymentStatus, real>)
    ensures r.Keys == m.Keys + {k}
    ensures r[k] == FeeAt(m, k) + v
    ensures forall j :: j in m && j != k ==> r[j] == m[j]
  {
    m[k := FeeAt(m, k) + v]
  }

  /** The fee revenue by status, accumulated over the payments in turn. */
  function ByStatus(ps: seq<Payment>): map<PaymentStatus, real> {
    if |ps| == 0 then map[]
    else Accrue(ByStatus(ps[..|ps| - 1]), ps[|ps| - 1].status, ps[|ps| - 1].forkastFee)
  }

  /** The breakdown has an entry exactly for the statuses that occur. */
  lemma {:induction false} ByStatusKeys(ps: seq<Payment>)
    ensures forall k :: k in ByStatus(ps) <==> exists i :: 0 <= i < |ps| && ps[i].status == k
  {
    if |ps| > 0 {
      var n := |ps| - 1;
      ByStatusKeys(ps[..n]);
      forall k ensures k in ByStatus(ps) <==> exists i :: 0 <= i < |ps| && ps[i].status == k {
        if k in ByStatus(ps[..n]) {
          var i :| 0 <= i < n && ps[..n][i].status == k;
          assert ps[i].status == k;
        }
        if exists i :: 0 <= i < |ps| && ps[i].status == k {
          var i :| 0 <= i < |ps| && ps[i].status == k;
          if i < n {
            assert ps[..n][i].status == k;
          }
        }
      }
    }
  }

  /** Each status's entry is the fee summed over the payments of that status. */
  lemma {:induction false} ByStatusEntry(ps: seq<Payment>, k: PaymentStatus)
    ensures FeeAt(ByStatus(ps), k) == SumOf(ps, Masked(HasStatus(k), Fee))
  {
    if |ps| > 0 {
      ByStatusEntry(ps[..|ps| - 1], k);
    }
  }

  /** The five entries together. */
  function StatusTotal(m: map<PaymentStatus, real>): real {
    FeeAt(m, Pending) + FeeAt(m, Processing) + FeeAt(m, Succeeded) + FeeAt(m, Failed) + FeeAt(m, Refunded)
  }

  /** Before rounding, the breakdown's entries sum to the total fee revenue of all payments. */
  lemma {:induction false} ByStatusTotal(ps: seq<Payment>)
    ensures StatusTotal(ByStatus(ps)) == SumOf(ps, Fee)
  {
    if |ps| > 0 {
      var n := |ps| - 1;
      ByStatusTotal(ps[..n]);
      var m := ByStatus(ps[..n]);
      var k := ps[n].status;
      var v := ps[n].forkastFee;
      var m' := Accrue(m, k, v);
      assert StatusTotal(m') == StatusTotal(m) + v by {
        match k
        case Pending => assert FeeAt(m', k) == FeeAt(m, k) + v;
        case Processing => assert FeeAt(m', k) == FeeAt(m, k) + v;
        case Succeeded => assert FeeAt(m', k) == FeeAt(m, k) + v;
        case Failed => assert FeeAt(m', k) == FeeAt(m, k) + v;
        case Refunded => assert FeeAt(m', k) == FeeAt(m, k) + v;
      }
    }
  }

  /** One entry of recent_transactions. */
  datatype RecentTx = RecentTx(
    uid: string,
    restaurantUid: string,
    supplierUid: string,
    amount: real,
    supplierAmount: real,
    forkastFee: real,
    forkastFeePct: real,
    currency: string,
    status: PaymentStatus,
    description: string,
    createdAt: int)

  function RecentOf(p: Payment): RecentTx {
    RecentTx(p.uid, p.restaurantUid, if p.supplierUid.Some? then p.supplierUid.value else "",
             p.amount, p.supplierAmount, p.forkastFee, p.forkastFeePct, p.currency, p.status,
             p.description, p.createdAt)
  }

  function RecentList(ps: seq<Payment>): (r: seq<RecentTx>)
    ensures |r| == |ps|
    ensures forall i :: 0 <= i < |ps| ==> r[i] == RecentOf(ps[i])
  {
    if |ps| == 0 then [] else RecentList(ps[..|ps| - 1]) + [RecentOf(ps[|ps| - 1])]
  }

  function RoundedMap(m: map<PaymentStatus, real>): map<PaymentStatus, real> {
    map k | k in m :: Round2(m[k])
  }

  datatype RevenueStats = RevenueStats(
    totalTransactions: nat,
    totalVolume: real,
    totalForkastRevenue: real,
    totalSupplierPayouts: real,
    avgFeePct: real,
    avgTransactionSize: real,
    revenueByStatus: map<PaymentStatus, real>,
    recent: seq<RecentTx>)

  /**
   * get_revenue_stats as a value: it covers every payment in scope whatever
   * its status, its average is 0 with no payments, the stated fee is 15.0 and
   * the recent list holds at most 50 payments.
   */
  function RevenueStatsOf(rows: seq<Payment>, r: Option<string>): (st: RevenueStats)
    ensures st.totalTransactions == |Scoped(rows, r)|
    ensures |Scoped(rows, r)| == 0 ==> st.avgTransactionSize == 0.0
    ensures st.avgFeePct == 15.0
    ensures |st.recent| == IMin(50, |Scoped(rows, r)|)
  {
    Sorting.SortByDescCorrect(Scoped(rows, r), CreatedKey);
    var ps := NewestFirst(rows, r);
    var volume := SumOf(ps, Amount);
    RevenueStats(|ps|, Round2(volume), Round2(SumOf(ps, Fee)), Round2(SumOf(ps, SupplierAmount)), 15.0,
                 if |ps| > 0 then Round2(volume / (|ps| as real)) else 0.0,
                 RoundedMap(ByStatus(ps)), RecentList(FirstN(ps, 50)))
  }

  /** The revenue_by_status loop: setdefault then += for each payment in turn. */
  method AccrueByStatus(ps: seq<Payment>) returns (byStatus: map<PaymentStatus, real>)
    ensures byStatus == ByStatus(ps)
  {
    byStatus := map[];
    var i := 0;
    while i < |ps|
      invariant 0 <= i <= |ps|
      invariant byStatus == ByStatus(ps[..i])
    {
      assert ps[..i + 1][..i] == ps[..i];
      var p := ps[i];
      if p.status !in byStatus {
        byStatus := byStatus[p.status := 0.0];
      }
      byStatus := byStatus[p.status := byStatus[p.status] + p.forkastFee];
      i := i + 1;
    }
    assert ps[..|ps|] == ps;
  }

  /** The recent_transactions loop over payments[:50]. */
  method RecentEntries(ps: seq<Payment>) returns (recent: seq<RecentTx>)
    ensures recent == RecentList(FirstN(ps, 50))
  {
    var top := ps[..IMin(50, |ps|)];
    recent := [];
    var j := 0;
    while j < |top|
      invariant 0 <= j <= |top|
      invariant recent == RecentList(top[..j])
    {
      assert top[..j + 1][..j] == top[..j];
      recent := recent + [RecentOf(top[j])];
      j := j + 1;
    }
    assert top[..|top|] == top;
  }

  /**
   * get_revenue_stats: totals over every status, the fee breakdown by status,
   * and the 50 newest payments.
   */
  method GetRevenueStats(payments: PaymentTable, r: Option<string>) returns (st: RevenueStats)
    ensures st == RevenueStatsOf(payments.rows, r)
  {
    var ps := NewestFirst(payments.rows, r);
    var volume := SumOf(ps, Amount);
    var forkast := SumOf(ps, Fee);
    var supplier := SumOf(ps, SupplierAmount);
    var n := |ps|;
    var byStatus := AccrueByStatus(ps);
    var recent := RecentEntries(ps);
    var avg := if n > 0 then Round2(volume / (n as real)) else 0.0;
    st := RevenueStats(n, Round2(volume), Round2(forkast), Round2(supplier), 15.0, avg,
                       map k | k in byStatus :: Round2(byStatus[k]), recent);
  }

  /** A status occurs among the newest-first payments exactly when it occurs among the payments in scope. */
  lemma NewestFirstStatuses(rows: seq<Payment>, r: Option<string>, k: PaymentStatus)
    ensures (exists i :: 0 <= i < |NewestFirst(rows, r)| && NewestFirst(rows, r)[i].status == k)
        <==> (exists i :: 0 <= i < |Scoped(rows, r)| && Scoped(rows, r)[i].status == k)
  {
    var ps := Scoped(rows, r);
    var sorted := NewestFirst(rows, r);
    Sorting.SortByDescCorrect(ps, CreatedKey);
    if exists i :: 0 <= i < |sorted| && sorted[i].status == k {
      var i :| 0 <= i < |sorted| && sorted[i].status == k;
      assert sorted[i] in multiset(ps);
      var j :| 0 <= j < |ps| && ps[j] == sorted[i];
    }
    if exists i :: 0 <= i < |ps| && ps[i].status == k {
      var i :| 0 <= i < |ps| && ps[i].status == k;
      assert ps[i] in multiset(sorted);
      var j :| 0 <= j < |sorted| && sorted[j] == ps[i];
    }
  }

  /** The fee breakdown has an entry exactly for each status that occurs among the payments in scope. */
  lemma RevenueByStatusKeys(rows: seq<Payment>, r: Option<string>)
    ensures var st := RevenueStatsOf(rows, r);
      var ps := Scoped(rows, r);
      forall k :: k in st.revenueByStatus <==> exists i :: 0 <= i < |ps| && ps[i].status == k
  {
    Sorting.SortByDescCorrect(Scoped(rows, r), CreatedKey);
    ByStatusKeys(NewestFirst(rows, r));
    forall k ensures k in RevenueStatsOf(rows, r).revenueByStatus
                 <==> exists i :: 0 <= i < |Scoped(rows, r)| && Scoped(rows, r)[i].status == k {
      NewestFirstStatuses(rows, r, k);
    }
  }

  /** The recent list is the min(50, n) newest payments in scope, newest first. */
  lemma RevenueStatsRecent(rows: seq<Payment>, r: Option<string>)
    ensures var st := RevenueStatsOf(rows, r);
      && (forall i :: 0 <= i < |st.recent| ==> st.recent[i] == RecentOf(NewestFirst(rows, r)[i]))
      && (forall i, j :: 0 <= i < j < |st.recent| ==> st.recent[i].createdAt >= st.recent[j].createdAt)
  {
    var sorted := NewestFirst(rows, r);
    Sorting.SortByDescCorrect(Scoped(rows, r), CreatedKey);
    var recent := RevenueStatsOf(rows, r).recent;
    assert recent == RecentList(FirstN(sorted, 50));
    forall i, j | 0 <= i < j < |recent| ensures recent[i].createdAt >= recent[j].createdAt {
      assert CreatedKey(sorted[i]) >= CreatedKey(sorted[j]);
    }
  }

  /** Ordering the payments does not change any sum over them. */
  lemma NewestFirstSum(rows: seq<Payment>, r: Option<string>, f: Payment -> real)
    ensures SumOf(NewestFirst(rows, r), f) == SumOf(Scoped(rows, r), f)
  {
    Sorting.SumOfSortBy(Scoped(rows, r), Sorting.Negate(CreatedKey), f);
  }

  /**
   * The revenue report's totals are over all statuses: before rounding, its
   * per-status entries sum to its fee revenue, and its succeeded entry is the
   * fee revenue get_payment_stats reports for the same scope.
   */
  lemma RevenueByStatusAgrees(rows: seq<Payment>, r: Option<string>)
    ensures var ps := NewestFirst(rows, r);
      && StatusTotal(ByStatus(ps)) == SumOf(Scoped(rows, r), Fee)
      && FeeAt(ByStatus(ps), Succeeded) == GetPaymentStats(rows, r).totalForkastRevenue
  {
    var ps := NewestFirst(rows, r);
    ByStatusTotal(ps);
    NewestFirstSum(rows, r, Fee);
    ByStatusEntry(ps, Succeeded);
    NewestFirstSum(rows, r, Masked(HasStatus(Succeeded), Fee));
    SumOfFilter(Scoped(rows, r), HasStatus(Succeeded), Fee);
  }
}
