/**
 * The loyalty tier engine: a restaurant's tier with a supplier follows the
 * number of its succeeded payments to that supplier in the last 90 days, and
 * a higher tier lowers the platform fee by the discount the platform absorbs.
 * The clock is a parameter (seconds since the epoch), as is every fresh row uid.
 */
module Loyalty {
  import opened Common
  import opened Store
  import opened Grouping

  datatype Tier = Tier(id: TierId, minOrders: int, discount: real, fee: real)

  /** The tier ladder, lowest first. */
  const Tiers: seq<Tier> := [
    Tier(Standard, 0, 0.0, 15.0),
    Tier(Bronze, 25, 2.0, 13.0),
    Tier(Silver, 50, 3.0, 12.0),
    Tier(Gold, 100, 5.0, 10.0),
    Tier(Platinum, 200, 7.0, 8.0)]

  /** The name a tier is stored and reported under. */
  function TierName(t: TierId): string {
    match t
    case Standard => "standard"
    case Bronze => "bronze"
    case Silver => "silver"
    case Gold => "gold"
    case Platinum => "platinum"
  }

  /** Tier names tell tiers apart, so the stored name determines the tier. */
  lemma TierNamesDistinct(a: TierId, b: TierId)
    requires TierName(a) == TierName(b)
    ensures a == b
  {
  }

  /** The fee of a relationship without an account. */
  const DefaultFee: real := 15.0
  const WindowDays: int := 90
  const SecondsPerDay: int := 86400

  // ---------------------------------------------------------------------
  // The ladder

  /**
   * _tier_for_orders: the loop keeps the last tier whose threshold the count
   * reaches, so the result is the highest such tier; the first tier if none is.
   */
  function TierIndexFor(count: int): (i: nat)
    ensures i < |Tiers|
    ensures count >= 0 ==> Tiers[i].minOrders <= count
    ensures forall j :: i < j < |Tiers| ==> count < Tiers[j].minOrders
  {
    if count >= Tiers[4].minOrders then 4
    else if count >= Tiers[3].minOrders then 3
    else if count >= Tiers[2].minOrders then 2
    else if count >= Tiers[1].minOrders then 1
    else 0
  }

  function TierFor(count: int): Tier {
    Tiers[TierIndexFor(count)]
  }

  /** More recent orders never mean a lower tier. */
  lemma TierIndexMonotone(a: int, b: int)
    requires a <= b
    ensures TierIndexFor(a) <= TierIndexFor(b)
  {
  }

  /** A count that reaches tier i's threshold but not the next one's is in tier i. */
  lemma TierIndexIs(count: int, i: nat)
    requires i < |Tiers| && Tiers[i].minOrders <= count
    requires i + 1 == |Tiers| || count < Tiers[i + 1].minOrders
    ensures TierIndexFor(count) == i
  {
  }

  /** The thresholds 25, 50, 100 and 200, and the starting tier below 25 orders. */
  lemma TierThresholds()
    ensures TierFor(-1).id == Standard && TierFor(0).id == Standard && TierFor(24).id == Standard
    ensures TierFor(25).id == Bronze && TierFor(49).id == Bronze
    ensures TierFor(50).id == Silver && TierFor(99).id == Silver
    ensures TierFor(100).id == Gold && TierFor(199).id == Gold
    ensures TierFor(200).id == Platinum && TierFor(10000).id == Platinum
  {
    TierIndexIs(0, 0); TierIndexIs(24, 0);
    TierIndexIs(25, 1); TierIndexIs(49, 1);
    TierIndexIs(50, 2); TierIndexIs(99, 2);
    TierIndexIs(100, 3); TierIndexIs(199, 3);
    TierIndexIs(200, 4); TierIndexIs(10000, 4);
  }

  /** Every tier's fee and discount add up to the default fee, and fees lie between 8 and 15. */
  lemma TierFeesComplement(count: int)
    ensures TierFor(count).fee + TierFor(count).discount == DefaultFee
    ensures 8.0 <= TierFor(count).fee <= DefaultFee && 0.0 <= TierFor(count).discount
  {
    var i := TierIndexFor(count);
    assert i == 0 || i == 1 || i == 2 || i == 3 || i == 4;
  }

  /** The tier's position in the ladder (the enumerate loop over the five tiers). */
  function TierRank(t: TierId): (r: nat)
    ensures r < |Tiers| && Tiers[r].id == t
  {
    match t
    case Standard => 0
    case Bronze => 1
    case Silver => 2
    case Gold => 3
    case Platinum => 4
  }

  /** _next_tier: the tier above the given one; none above the top. */
  function NextTier(t: TierId): Option<Tier> {
    var p := TierRank(t);
    if p + 1 < |Tiers| then Some(Tiers[p + 1]) else None
  }

  /** Ranks follow the ladder, each tier below the top has the next one above it, and the top has none. */
  lemma NextTierCorrect()
    ensures forall i :: 0 <= i < |Tiers| ==> TierRank(Tiers[i].id) == i
    ensures forall i :: 0 <= i < |Tiers| - 1 ==> NextTier(Tiers[i].id) == Some(Tiers[i + 1])
    ensures NextTier(Platinum) == None
    ensures forall t: TierId :: NextTier(t).Some? ==> NextTier(t).value.minOrders > Tiers[TierRank(t)].minOrders
  {
    forall i | 0 <= i < |Tiers|
      ensures TierRank(Tiers[i].id) == i
    {
      assert i == 0 || i == 1 || i == 2 || i == 3 || i == 4;
    }
  }

  // ---------------------------------------------------------------------
  // Accounts

  /** A payment that counts toward a pair's rolling window. */
  predicate CountsToward(p: Payment, r: string, s: string, cutoff: int) {
    p.restaurantUid == r && p.supplierUid == Some(s) && p.status == Succeeded && p.createdAt >= cutoff
  }

  /** count_recent_orders: succeeded payments of the pair created at or after now minus the window. */
  function RecentOrders(payments: seq<Payment>, r: string, s: string, now: int, days: int): nat {
    CountOf(payments, (p: Payment) => CountsToward(p, r, s, now - days * SecondsPerDay))
  }

  /** The window count never exceeds the number of payments, and one more counted row adds one. */
  lemma RecentOrdersFacts(payments: seq<Payment>, p: Payment, r: string, s: string, now: int, days: int)
    ensures RecentOrders(payments, r, s, now, days) <= |payments|
    ensures RecentOrders(payments + [p], r, s, now, days)
            == RecentOrders(payments, r, s, now, days) + (if CountsToward(p, r, s, now - days * SecondsPerDay) then 1 else 0)
  {
    CountOfBound(payments, (q: Payment) => CountsToward(q, r, s, now - days * SecondsPerDay));
    assert (payments + [p])[..|payments|] == payments;
  }

  /** A fresh account: standard tier, no orders, the default fee. */
  function NewAccount(uid: string, r: string, s: string, now: int): (a: Account)
    ensures a.restaurantUid == r && a.supplierUid == s && TierConsistent(a)
    ensures a.currentTier == Standard && a.orders90d == 0 && a.totalOrders == 0 && a.totalSpent == 0.0
    ensures a.discountPct == 0.0 && a.effectiveFee == DefaultFee
  {
    Account(uid, r, s, Standard, 0, 0, 0.0, 0.0, 15.0, now, now, now)
  }

  /** The account's tier, discount and fee are those of its own window count. */
  predicate TierConsistent(a: Account) {
    var t := TierFor(a.orders90d);
    a.currentTier == t.id && a.discountPct == t.discount && a.effectiveFee == t.fee
  }

  /** The loyalty tables' invariant: accounts sit under their own pair and carry their tier's terms. */
  ghost predicate BookValid(accounts: map<AccountKey, Account>) {
    forall k :: k in accounts ==>
      accounts[k].restaurantUid == k.0 && accounts[k].supplierUid == k.1 && TierConsistent(accounts[k])
  }

  /** The terms of every account in a valid book: fee plus discount is the default fee. */
  lemma ValidBookFees(accounts: map<AccountKey, Account>, k: AccountKey)
    requires BookValid(accounts) && k in accounts
    ensures accounts[k].effectiveFee + accounts[k].discountPct == DefaultFee
    ensures 8.0 <= accounts[k].effectiveFee <= DefaultFee
  {
    TierFeesComplement(accounts[k].orders90d);
  }

  /** The account once evaluate_tier has applied a window count of c at time now. */
  function Evaluated(a: Account, c: int, now: int): Account {
    var t := TierFor(c);
    a.(orders90d := c, currentTier := t.id, discountPct := t.discount, effectiveFee := t.fee,
       lastEvaluated := now, updatedAt := now)
  }

  predicate TierChanged(a: Account, c: int) {
    a.currentTier != TierFor(c).id
  }

  /** How a tier change is classified: up when the new tier sits higher on the ladder. */
  datatype Move = Up | Down | Stay

  function TierMove(from: TierId, to: TierId): (m: Move)
    ensures m == Stay <==> from == to
    ensures m == Up <==> TierRank(to) > TierRank(from)
  {
    if to != from then (if TierRank(to) > TierRank(from) then Up else Down) else Stay
  }

  /** The move the evaluation of an account at window count c makes. */
  function MoveOf(a: Account, c: int): Move {
    TierMove(a.currentTier, TierFor(c).id)
  }

  predicate IsUpgrade(a: Account, c: int) {
    MoveOf(a, c) == Up
  }

  /** The log entries evaluate_tier appends: one tier-change entry exactly when the tier name changes. */
  function TierChange(a: Account, c: int, now: int): seq<LoyaltyTx> {
    if TierChanged(a, c) then
      [LoyaltyTx(a.uid, if IsUpgrade(a, c) then TierUpgrade else TierDowngrade, None, c,
                 a.currentTier, TierFor(c).id, 0.0, 0.0, now)]
    else []
  }

  /**
   * Evaluation replaces the count, tier and terms and nothing that identifies or
   * totals the account, keeps the tier invariant, and logs the move from the
   * old tier to the new one only when there is one.
   */
  lemma EvaluatedFacts(a: Account, c: int, now: int)
    ensures var e := Evaluated(a, c, now);
      && TierConsistent(e) && e.orders90d == c && e.currentTier == TierFor(c).id
      && e.effectiveFee + e.discountPct == DefaultFee
      && e.uid == a.uid && e.restaurantUid == a.restaurantUid && e.supplierUid == a.supplierUid
      && e.totalOrders == a.totalOrders && e.totalSpent == a.totalSpent && e.createdAt == a.createdAt
    ensures |TierChange(a, c, now)| == (if TierChanged(a, c) then 1 else 0)
    ensures TierChanged(a, c) ==> var tx := TierChange(a, c, now)[0];
      && tx.oldTier == a.currentTier && tx.newTier == TierFor(c).id && tx.orderCount == c
      && (tx.eventType == TierUpgrade <==> TierRank(TierFor(c).id) > TierRank(a.currentTier))
      && tx.eventType != PaymentCompleted
  {
    var i := TierIndexFor(c);
    NextTierCorrect();
    TierFeesComplement(c);
  }

  /** Re-evaluating straight away changes nothing more: the tier is already the count's tier. */
  lemma EvaluationSettles(a: Account, c: int, now: int)
    ensures !TierChanged(Evaluated(a, c, now), c)
    ensures Evaluated(Evaluated(a, c, now), c, now) == Evaluated(a, c, now)
    ensures TierChange(Evaluated(a, c, now), c, now) == []
  {
  }

  // ---------------------------------------------------------------------
  // Operations

  /** get_or_create_account: the pair's account, created on first use. */
  method GetOrCreateAccount(book: LoyaltyBook, r: string, s: string, uid: string, now: int) returns (key: AccountKey)
    modifies book
    ensures key == (r, s) && key in book.accounts
    ensures book.log == old(book.log)
    ensures key in old(book.accounts) ==> book.accounts == old(book.accounts)
    ensures key !in old(book.accounts) ==> book.accounts == old(book.accounts)[key := NewAccount(uid, r, s, now)]
  {
    key := (r, s);
    if key !in book.accounts {
      var account := Account(uid, r, s, Standard, 0, 0, 0.0, 0.0, 15.0, now, now, now);
      book.accounts := book.accounts[key := account];
    }
  }

  /** evaluate_tier: recount the window, move the account to the count's tier, log a change. */
  method EvaluateTier(payments: PaymentTable, book: LoyaltyBook, key: AccountKey, now: int) returns (changed: bool)
    requires key in book.accounts
    modifies book
    ensures var a := old(book.accounts[key]);
      var c := RecentOrders(payments.rows, a.restaurantUid, a.supplierUid, now, WindowDays);
      && book.accounts == old(book.accounts)[key := Evaluated(a, c, now)]
      && (changed <==> TierChanged(a, c))
      && book.log == old(book.log) + TierChange(a, c, now)
  {
    var account := book.accounts[key];
    var orders := RecentOrders(payments.rows, account.restaurantUid, account.supplierUid, now, WindowDays);
    var info := TierFor(orders);
    var oldTier := account.currentTier;
    changed := oldTier != info.id;
    account := account.(orders90d := orders);
    account := account.(currentTier := info.id);
    account := account.(discountPct := info.discount);
    account := account.(effectiveFee := info.fee);
    account := account.(lastEvaluated := now, updatedAt := now);
    book.accounts := book.accounts[key := account];
    if changed {
      var oldIdx := TierRank(oldTier);
      var newIdx := TierRank(info.id);
      var event := if newIdx > oldIdx then TierUpgrade else TierDowngrade;
      book.log := book.log + [LoyaltyTx(account.uid, event, None, orders, oldTier, info.id, 0.0, 0.0, now)];
    }
  }

  /** The payment_completed entry record_payment logs before the tier is re-evaluated. */
  function PaymentEntry(a: Account, paymentUid: string, amount: real, discount: real, now: int): LoyaltyTx {
    LoyaltyTx(a.uid, PaymentCompleted, Some(paymentUid), a.orders90d + 1, a.currentTier, a.currentTier,
              amount, discount, now)
  }

  /** The account record_payment credits with one more order and the payment's amount. */
  function Credited(a: Account, amount: real): Account {
    a.(totalOrders := a.totalOrders + 1, totalSpent := a.totalSpent + amount)
  }

  /** The entries record_payment leaves in the log: the patched payment entry, then any tier change. */
  function PaymentLog(a: Account, c: int, paymentUid: string, amount: real, discount: real, now: int): seq<LoyaltyTx> {
    [PaymentEntry(a, paymentUid, amount, discount, now).(newTier := TierFor(c).id, orderCount := c)]
      + TierChange(a, c, now)
  }

  /**
   * After a payment the account has one more lifetime order and the amount
   * more spent, and the payment entry records the old tier, the resulting
   * tier and window count, the amount and the discount applied.
   */
  lemma PaymentLogFacts(a: Account, amount: real, c: int, paymentUid: string, discount: real, now: int)
    ensures var a1 := Credited(a, amount);
      var e := Evaluated(a1, c, now);
      var log := PaymentLog(a1, c, paymentUid, amount, discount, now);
      && e.totalOrders == a.totalOrders + 1 && e.totalSpent == a.totalSpent + amount && TierConsistent(e)
      && |log| == 1 + (if TierChanged(a, c) then 1 else 0)
      && log[0].eventType == PaymentCompleted && log[0].paymentUid == Some(paymentUid)
      && log[0].oldTier == a.currentTier && log[0].newTier == e.currentTier && log[0].orderCount == e.orders90d
      && log[0].amount == amount && log[0].discountApplied == discount && log[0].accountUid == a.uid
  {
    EvaluatedFacts(Credited(a, amount), c, now);
  }

  /** A payment or an evaluation that writes an account consistent with its pair keeps the book valid. */
  lemma BookValidUpdate(accounts: map<AccountKey, Account>, key: AccountKey, a: Account)
    requires BookValid(accounts)
    requires a.restaurantUid == key.0 && a.supplierUid == key.1 && TierConsistent(a)
    ensures BookValid(accounts[key := a])
  {
  }

  /** Writing the pair's account twice, after it may have been created, leaves only the last write. */
  lemma OverwriteAccount(m0: map<AccountKey, Account>, m1: map<AccountKey, Account>, k: AccountKey,
                         a: Account, x: Account, y: Account)
    requires m1 == if k in m0 then m0 else m0[k := a]
    ensures m1[k := x][k := y] == m0[k := y]
  {
    assert m1[k := x][k := y] == m1[k := y];
    if k !in m0 {
      assert m0[k := a][k := y] == m0[k := y];
    }
  }

  lemma PatchEntry(log: seq<LoyaltyTx>, tx: LoyaltyTx, rest: seq<LoyaltyTx>, tx': LoyaltyTx)
    ensures (log + [tx] + rest)[|log| := tx'] == log + [tx'] + rest
  {
    var patched := (log + [tx] + rest)[|log| := tx'];
    assert forall i :: 0 <= i < |patched| ==> patched[i] == (log + [tx'] + rest)[i];
  }

  /** The account record_payment works on: the pair's account, or the one get_or_create_account adds. */
  function AccountBefore(accounts: map<AccountKey, Account>, r: string, s: string, uid: string, now: int): Account {
    if (r, s) in accounts then accounts[(r, s)] else NewAccount(uid, r, s, now)
  }

  /**
   * record_payment: count the order and the spend, log the payment, re-evaluate
   * the tier, then patch the payment entry with the tier and count that resulted.
   */
  method RecordPayment(payments: PaymentTable, book: LoyaltyBook, r: string, s: string, paymentUid: string,
                       amount: real, discount: real, uid: string, now: int)
    modifies book
    ensures var a0 := AccountBefore(old(book.accounts), r, s, uid, now);
      book.accounts == old(book.accounts)[(r, s) := Evaluated(Credited(a0, amount), AccountCount(payments.rows, a0, now), now)]
    ensures var a0 := AccountBefore(old(book.accounts), r, s, uid, now);
      book.log == old(book.log) + PaymentLog(Credited(a0, amount), AccountCount(payments.rows, a0, now), paymentUid, amount, discount, now)
  {
    ghost var log0 := book.log;
    ghost var a0 := AccountBefore(book.accounts, r, s, uid, now);
    var key := GetOrCreateAccount(book, r, s, uid, now);
    ghost var m1 := book.accounts;
    var account := book.accounts[key];
    account := account.(totalOrders := account.totalOrders + 1, totalSpent := account.totalSpent + amount);
    book.accounts := book.accounts[key := account];
    var tx := PaymentEntry(account, paymentUid, amount, discount, now);
    var idx := |book.log|;
    book.log := book.log + [tx];
    var _ := EvaluateTier(payments, book, key, now);
    ghost var logE := book.log;
    var evaluated := book.accounts[key];
    book.log := book.log[idx := book.log[idx].(newTier := evaluated.currentTier, orderCount := evaluated.orders90d)];
    ghost var c := AccountCount(payments.rows, a0, now);
    assert account == Credited(a0, amount);
    OverwriteAccount(old(book.accounts), m1, key, a0, account, Evaluated(account, c, now));
    assert evaluated == Evaluated(account, c, now);
    PatchEntry(log0, tx, TierChange(account, c, now), tx.(newTier := evaluated.currentTier, orderCount := evaluated.orders90d));
  }

  /**
   * In a valid book the account record_payment works on belongs to the pair,
   * its window count is the pair's, and the book stays valid afterwards.
   */
  lemma RecordPaymentKeepsBookValid(accounts: map<AccountKey, Account>, rows: seq<Payment>, r: string, s: string,
                                    uid: string, amount: real, now: int)
    requires BookValid(accounts)
    ensures var a0 := AccountBefore(accounts, r, s, uid, now);
      && a0.restaurantUid == r && a0.supplierUid == s
      && AccountCount(rows, a0, now) == RecentOrders(rows, r, s, now, WindowDays)
      && BookValid(accounts[(r, s) := Evaluated(Credited(a0, amount), AccountCount(rows, a0, now), now)])
  {
    var a0 := AccountBefore(accounts, r, s, uid, now);
    var a1 := Credited(a0, amount);
    EvaluatedFacts(a1, AccountCount(rows, a0, now), now);
    BookValidUpdate(accounts, (r, s), Evaluated(a1, AccountCount(rows, a0, now), now));
  }

  /** The fee get_effective_fee returns: the default without a supplier or an account, else the re-evaluated tier's fee. */
  function EffectiveFee(accounts: map<AccountKey, Account>, payments: seq<Payment>, r: string, s: Option<string>, now: int): (fee: real)
    ensures 8.0 <= fee <= DefaultFee
    ensures !Present(s) || (r, s.value) !in accounts ==> fee == DefaultFee
    ensures Present(s) && (r, s.value) in accounts ==>
      fee == TierFor(AccountCount(payments, accounts[(r, s.value)], now)).fee
  {
    if !Present(s) || (r, s.value) !in accounts then DefaultFee
    else
      var c := AccountCount(payments, accounts[(r, s.value)], now);
      TierFeesComplement(c);
      TierFor(c).fee
  }

  /** The accounts after a fee lookup: the pair's account, when it exists, re-evaluated. */
  function FeeLookupAccounts(accounts: map<AccountKey, Account>, payments: seq<Payment>, r: string, s: Option<string>, now: int)
    : (m: map<AccountKey, Account>)
    ensures m.Keys == accounts.Keys
  {
    if !Present(s) || (r, s.value) !in accounts then accounts
    else
      var a := accounts[(r, s.value)];
      accounts[(r, s.value) := Evaluated(a, AccountCount(payments, a, now), now)]
  }

  /** The log entries a fee lookup appends: the tier change of the re-evaluation, if any. */
  function FeeLookupLog(accounts: map<AccountKey, Account>, payments: seq<Payment>, r: string, s: Option<string>, now: int)
    : seq<LoyaltyTx>
  {
    if !Present(s) || (r, s.value) !in accounts then []
    else
      var a := accounts[(r, s.value)];
      TierChange(a, AccountCount(payments, a, now), now)
  }

  /** get_effective_fee: looks the fee up, re-evaluating an existing account but never creating one. */
  method GetEffectiveFee(payments: PaymentTable, book: LoyaltyBook, r: string, s: Option<string>, now: int)
    returns (fee: real)
    modifies book
    ensures fee == EffectiveFee(old(book.accounts), payments.rows, r, s, now)
    ensures book.accounts == FeeLookupAccounts(old(book.accounts), payments.rows, r, s, now)
    ensures book.log == old(book.log) + FeeLookupLog(old(book.accounts), payments.rows, r, s, now)
  {
    if !Present(s) {
      return 15.0;
    }
    var key := (r, s.value);
    if key in book.accounts {
      var _ := EvaluateTier(payments, book, key, now);
      fee := book.accounts[key].effectiveFee;
      return fee;
    }
    fee := 15.0;
  }

  /** The window count of an account's own pair. */
  function AccountCount(payments: seq<Payment>, a: Account, now: int): int {
    RecentOrders(payments, a.restaurantUid, a.supplierUid, now, WindowDays)
  }

  predicate UpgradedIn(accounts: map<AccountKey, Account>, payments: seq<Payment>, now: int, k: AccountKey) {
    k in accounts && MoveOf(accounts[k], AccountCount(payments, accounts[k], now)) == Up
  }

  predicate DowngradedIn(accounts: map<AccountKey, Account>, payments: seq<Payment>, now: int, k: AccountKey) {
    k in accounts && MoveOf(accounts[k], AccountCount(payments, accounts[k], now)) == Down
  }

  /** The number of listed accounts whose evaluation moves them up the ladder. */
  function Upgrades(accounts: map<AccountKey, Account>, payments: seq<Payment>, now: int, order: seq<AccountKey>): nat {
    if |order| == 0 then 0
    else Upgrades(accounts, payments, now, order[..|order| - 1])
         + (if UpgradedIn(accounts, payments, now, order[|order| - 1]) then 1 else 0)
  }

  /** The number of listed accounts whose evaluation changes their tier but not upward. */
  function Downgrades(accounts: map<AccountKey, Account>, payments: seq<Payment>, now: int, order: seq<AccountKey>): nat {
    if |order| == 0 then 0
    else Downgrades(accounts, payments, now, order[..|order| - 1])
         + (if DowngradedIn(accounts, payments, now, order[|order| - 1]) then 1 else 0)
  }

  /** The tier-change entries evaluating the listed accounts in turn appends to the log. */
  function ChangeLog(accounts: map<AccountKey, Account>, payments: seq<Payment>, now: int, order: seq<AccountKey>): seq<LoyaltyTx>
    requires forall k :: k in order ==> k in accounts
  {
    if |order| == 0 then []
    else
      var k := order[|order| - 1];
      ChangeLog(accounts, payments, now, order[..|order| - 1]) + TierChange(accounts[k], AccountCount(payments, accounts[k], now), now)
  }

  /**
   * The batch's log has one entry per account that changes tier: as many as
   * the upgrades and downgrades together, upgrades logged as such.
   */
  lemma {:induction false} ChangeLogCounts(accounts: map<AccountKey, Account>, payments: seq<Payment>, now: int, order: seq<AccountKey>)
    requires forall k :: k in order ==> k in accounts
    ensures |ChangeLog(accounts, payments, now, order)| == Upgrades(accounts, payments, now, order) + Downgrades(accounts, payments, now, order)
    ensures Upgrades(accounts, payments, now, order) + Downgrades(accounts, payments, now, order) <= |order|
    ensures forall i :: 0 <= i < |ChangeLog(accounts, payments, now, order)| ==>
      ChangeLog(accounts, payments, now, order)[i].eventType != PaymentCompleted
  {
    if |order| > 0 {
      var k := order[|order| - 1];
      var front := order[..|order| - 1];
      ChangeLogCounts(accounts, payments, now, front);
      EvaluatedFacts(accounts[k], AccountCount(payments, accounts[k], now), now);
      var t := TierChange(accounts[k], AccountCount(payments, accounts[k], now), now);
      assert ChangeLog(accounts, payments, now, order) == ChangeLog(accounts, payments, now, front) + t;
    }
  }

  /** The state of a batch evaluation: the accounts, the log and the three counters. */
  datatype BatchState = BatchState(accounts: map<AccountKey, Account>, log: seq<LoyaltyTx>, ups: nat, downs: nat, same: nat)

  /** One account of the batch: evaluate it, log its change, count its move. */
  function BatchStep(st: BatchState, payments: seq<Payment>, now: int, k: AccountKey): (r: BatchState)
    requires k in st.accounts
    ensures r.accounts.Keys == st.accounts.Keys
  {
    var a := st.accounts[k];
    var c := AccountCount(payments, a, now);
    var m := MoveOf(a, c);
    BatchState(st.accounts[k := Evaluated(a, c, now)], st.log + TierChange(a, c, now),
               st.ups + (if m == Up then 1 else 0), st.downs + (if m == Down then 1 else 0),
               st.same + (if m == Stay then 1 else 0))
  }

  /** The batch after the listed accounts have been evaluated in turn. */
  function Batch(st: BatchState, payments: seq<Payment>, now: int, order: seq<AccountKey>): (r: BatchState)
    requires forall k :: k in order ==> k in st.accounts
    ensures r.accounts.Keys == st.accounts.Keys
  {
    if |order| == 0 then st
    else BatchStep(Batch(st, payments, now, order[..|order| - 1]), payments, now, order[|order| - 1])
  }

  /**
   * A batch over distinct keys evaluates each listed account once, from its
   * state before the batch, and leaves the others alone.
   */
  lemma {:induction false} BatchEvaluatesEach(st: BatchState, payments: seq<Payment>, now: int, order: seq<AccountKey>)
    requires Distinct(order) && forall k :: k in order ==> k in st.accounts
    ensures forall k :: k in st.accounts ==>
      Batch(st, payments, now, order).accounts[k]
        == if k in order then Evaluated(st.accounts[k], AccountCount(payments, st.accounts[k], now), now) else st.accounts[k]
  {
    if |order| > 0 {
      var front := order[..|order| - 1];
      var last := order[|order| - 1];
      assert Distinct(front);
      BatchEvaluatesEach(st, payments, now, front);
      assert last !in front;
      forall k | k in st.accounts
        ensures k in order <==> k in front || k == last
      {
        if k in order && k != last {
          var j :| 0 <= j < |order| && order[j] == k;
          assert front[j] == k;
        }
      }
    }
  }

  /** The batch's counters are the upgrades, the downgrades and the rest of the listed accounts. */
  lemma {:induction false} BatchCounts(st: BatchState, payments: seq<Payment>, now: int, order: seq<AccountKey>)
    requires Distinct(order) && forall k :: k in order ==> k in st.accounts
    ensures var r := Batch(st, payments, now, order);
      && r.ups == st.ups + Upgrades(st.accounts, payments, now, order)
      && r.downs == st.downs + Downgrades(st.accounts, payments, now, order)
      && r.ups + r.downs + r.same == st.ups + st.downs + st.same + |order|
  {
    if |order| > 0 {
      var front := order[..|order| - 1];
      var last := order[|order| - 1];
      assert Distinct(front);
      BatchCounts(st, payments, now, front);
      BatchEvaluatesEach(st, payments, now, front);
      assert last !in front;
    }
  }

  /** The batch appends to the log the tier changes of the listed accounts, in turn. */
  lemma {:induction false} BatchLog(st: BatchState, payments: seq<Payment>, now: int, order: seq<AccountKey>)
    requires Distinct(order) && forall k :: k in order ==> k in st.accounts
    ensures Batch(st, payments, now, order).log == st.log + ChangeLog(st.accounts, payments, now, order)
  {
    if |order| > 0 {
      var front := order[..|order| - 1];
      var last := order[|order| - 1];
      assert Distinct(front);
      BatchLog(st, payments, now, front);
      BatchEvaluatesEach(st, payments, now, front);
      assert last !in front;
      var a := st.accounts[last];
      var t := TierChange(a, AccountCount(payments, a, now), now);
      assert st.log + ChangeLog(st.accounts, payments, now, front) + t == st.log + ChangeLog(st.accounts, payments, now, order);
    }
  }

  /** The loop body of evaluate_all_accounts: note the tier, re-evaluate, and say how the tier moved. */
  method EvaluateAndClassify(payments: PaymentTable, book: LoyaltyBook, key: AccountKey, now: int) returns (move: Move)
    requires key in book.accounts
    modifies book
    ensures var a := old(book.accounts[key]);
      var c := AccountCount(payments.rows, a, now);
      && book.accounts == old(book.accounts)[key := Evaluated(a, c, now)]
      && book.log == old(book.log) + TierChange(a, c, now)
      && move == MoveOf(a, c)
  {
    var oldTier := book.accounts[key].currentTier;
    var _ := EvaluateTier(payments, book, key, now);
    move := TierMove(oldTier, book.accounts[key].currentTier);
  }

  /** The loop body of evaluate_all_accounts: evaluate one account and count its move. */
  method EvaluateAndCount(payments: PaymentTable, book: LoyaltyBook, key: AccountKey, now: int, ups: nat, downs: nat, same: nat)
    returns (ups': nat, downs': nat, same': nat)
    requires key in book.accounts
    modifies book
    ensures BatchState(book.accounts, book.log, ups', downs', same')
         == BatchStep(BatchState(old(book.accounts), old(book.log), ups, downs, same), payments.rows, now, key)
  {
    var move := EvaluateAndClassify(payments, book, key, now);
    ups', downs', same' := ups, downs, same;
    if move == Up {
      ups' := ups + 1;
    } else if move == Down {
      downs' := downs + 1;
    } else {
      same' := same + 1;
    }
  }

  datatype EvaluationSummary = EvaluationSummary(totalAccounts: nat, upgrades: nat, downgrades: nat, unchangedCount: nat)

  /**
   * evaluate_all_accounts: every account, in the order the store lists them,
   * is re-evaluated and counted as an upgrade, a downgrade or unchanged.
   */
  method EvaluateAllAccounts(payments: PaymentTable, book: LoyaltyBook, order: seq<AccountKey>, now: int)
    returns (s: EvaluationSummary)
    requires Distinct(order) && forall k :: k in book.accounts <==> k in order
    modifies book
    ensures s.totalAccounts == |order| && s.upgrades + s.downgrades + s.unchangedCount == s.totalAccounts
    ensures s.upgrades == Upgrades(old(book.accounts), payments.rows, now, order)
    ensures s.downgrades == Downgrades(old(book.accounts), payments.rows, now, order)
    ensures book.accounts.Keys == old(book.accounts).Keys
    ensures forall k :: k in book.accounts ==>
      book.accounts[k] == Evaluated(old(book.accounts)[k], AccountCount(payments.rows, old(book.accounts)[k], now), now)
    ensures book.log == old(book.log) + ChangeLog(old(book.accounts), payments.rows, now, order)
  {
    ghost var st0 := BatchState(book.accounts, book.log, 0, 0, 0);
    var upgrades, downgrades, same := 0, 0, 0;
    var i := 0;
    while i < |order|
      invariant 0 <= i <= |order|
      invariant BatchState(book.accounts, book.log, upgrades, downgrades, same) == Batch(st0, payments.rows, now, order[..i])
    {
      assert order[..i + 1][..i] == order[..i];
      upgrades, downgrades, same := EvaluateAndCount(payments, book, order[i], now, upgrades, downgrades, same);
      i := i + 1;
    }
    assert order[..|order|] == order;
    BatchEvaluatesEach(st0, payments.rows, now, order);
    BatchCounts(st0, payments.rows, now, order);
    BatchLog(st0, payments.rows, now, order);
    s := EvaluationSummary(|order|, upgrades, downgrades, same);
  }

  // ---------------------------------------------------------------------
  // Summary

  /** One account of the summary, with its next tier and the orders still missing for it. */
  datatype AccountView = AccountView(
    supplierUid: string,
    supplierName: string,
    currentTier: TierId,
    orders90d: int,
    nextTier: Option<TierId>,
    ordersToNextTier: Option<int>)

  /** The enrichment of one account: the supplier's name (or its uid) and the next tier. */
  function ViewOf(a: Account, supplierNames: map<string, string>): (v: AccountView)
    ensures v.nextTier.Some? <==> NextTier(a.currentTier).Some?
    ensures v.ordersToNextTier.Some? <==> NextTier(a.currentTier).Some?
    ensures v.ordersToNextTier.Some? ==>
      v.ordersToNextTier.value == IMax(0, NextTier(a.currentTier).value.minOrders - a.orders90d)
      && v.ordersToNextTier.value >= 0
  {
    var next := NextTier(a.currentTier);
    var toNext := if next.Some? then Some(next.value.minOrders - a.orders90d) else None;
    AccountView(a.supplierUid,
                if a.supplierUid in supplierNames then supplierNames[a.supplierUid] else a.supplierUid,
                a.currentTier, a.orders90d,
                if next.Some? then Some(next.value.id) else None,
                if toNext.Some? then Some(IMax(0, toNext.value)) else None)
  }

  /** The discount the platform absorbed for an account: its log entries' discounts. */
  function AccountSavings(log: seq<LoyaltyTx>, accountUid: string): real {
    SumOf(Filter(log, (tx: LoyaltyTx) => tx.accountUid == accountUid), (tx: LoyaltyTx) => tx.discountApplied)
  }

  /** The active_tiers dictionary built by the summary loop's setdefault. */
  function TierTally(accounts: map<AccountKey, Account>, order: seq<AccountKey>): map<TierId, nat>
    requires forall k :: k in order ==> k in accounts
  {
    if |order| == 0 then map[]
    else
      Bump(TierTally(accounts, order[..|order| - 1]), accounts[order[|order| - 1]].currentTier)
  }

  /** active_tiers.setdefault(t, 0); active_tiers[t] += 1 */
  function Bump(m: map<TierId, nat>, t: TierId): (r: map<TierId, nat>)
    ensures r.Keys == m.Keys + {t}
    ensures r[t] == (if t in m then m[t] else 0) + 1
    ensures forall u :: u in m && u != t ==> r[u] == m[u]
  {
    m[t := (if t in m then m[t] else 0) + 1]
  }

  /** The listed accounts in tier t. */
  function InTier(accounts: map<AccountKey, Account>, t: TierId): AccountKey -> bool {
    (k: AccountKey) => k in accounts && accounts[k].currentTier == t
  }

  lemma {:induction false} TierTallyIsCount(accounts: map<AccountKey, Account>, order: seq<AccountKey>, t: TierId)
    requires forall k :: k in order ==> k in accounts
    ensures t in TierTally(accounts, order) <==> CountOf(order, InTier(accounts, t)) > 0
    ensures t in TierTally(accounts, order) ==> TierTally(accounts, order)[t] == CountOf(order, InTier(accounts, t))
  {
    if |order| > 0 {
      TierTallyIsCount(accounts, order[..|order| - 1], t);
    }
  }

  /** A tier appears in the tally exactly when some listed account is in it, with its account count. */
  lemma TierTallyCounts(accounts: map<AccountKey, Account>, order: seq<AccountKey>, t: TierId)
    requires forall k :: k in order ==> k in accounts
    ensures t in TierTally(accounts, order) <==> exists i :: 0 <= i < |order| && accounts[order[i]].currentTier == t
    ensures t in TierTally(accounts, order) ==>
      TierTally(accounts, order)[t] == CountOf(order, InTier(accounts, t))
    ensures t !in TierTally(accounts, order) ==> CountOf(order, InTier(accounts, t)) == 0
  {
    TierTallyIsCount(accounts, order, t);
    CountOfPositive(order, InTier(accounts, t));
    if exists i :: 0 <= i < |order| && accounts[order[i]].currentTier == t {
      var i :| 0 <= i < |order| && accounts[order[i]].currentTier == t;
      assert InTier(accounts, t)(order[i]);
    }
  }

  // The per-account figures the summary adds up (0 for a key without an account).

  function SavingsOf(accounts: map<AccountKey, Account>, log: seq<LoyaltyTx>): AccountKey -> real {
    (k: AccountKey) => if k in accounts then AccountSavings(log, accounts[k].uid) else 0.0
  }

  function OrdersOf(accounts: map<AccountKey, Account>): AccountKey -> int {
    (k: AccountKey) => if k in accounts then accounts[k].totalOrders else 0
  }

  function SpentOf(accounts: map<AccountKey, Account>): AccountKey -> real {
    (k: AccountKey) => if k in accounts then accounts[k].totalSpent else 0.0
  }

  function DiscountOf(accounts: map<AccountKey, Account>): AccountKey -> real {
    (k: AccountKey) => if k in accounts then accounts[k].discountPct else 0.0
  }

  datatype LoyaltySummary = LoyaltySummary(
    totalSupplierAccounts: nat,
    activeTiers: map<TierId, nat>,
    totalLifetimeOrders: int,
    totalLifetimeSpent: real,
    totalSavings: real,
    avgDiscountPct: real,
    accounts: seq<AccountView>)

  /** The enriched list: each listed account's view, in order. */
  function Views(accounts: map<AccountKey, Account>, supplierNames: map<string, string>, order: seq<AccountKey>): (r: seq<AccountView>)
    requires forall k :: k in order ==> k in accounts
    ensures |r| == |order|
    ensures forall i :: 0 <= i < |order| ==> r[i] == ViewOf(accounts[order[i]], supplierNames)
  {
    if |order| == 0 then []
    else Views(accounts, supplierNames, order[..|order| - 1]) + [ViewOf(accounts[order[|order| - 1]], supplierNames)]
  }

  lemma ScanStep(accounts: map<AccountKey, Account>, log: seq<LoyaltyTx>, supplierNames: map<string, string>, order: seq<AccountKey>, i: nat)
    requires forall k :: k in order ==> k in accounts
    requires i < |order|
    ensures Views(accounts, supplierNames, order[..i + 1])
         == Views(accounts, supplierNames, order[..i]) + [ViewOf(accounts[order[i]], supplierNames)]
    ensures TierTally(accounts, order[..i + 1]) == Bump(TierTally(accounts, order[..i]), accounts[order[i]].currentTier)
    ensures SumOf(order[..i + 1], SavingsOf(accounts, log))
         == SumOf(order[..i], SavingsOf(accounts, log)) + AccountSavings(log, accounts[order[i]].uid)
  {
    assert order[..i + 1][..i] == order[..i];
  }

  /**
   * The loop of get_loyalty_summary: each listed account's view, the
   * per-tier account counts and the savings, accumulated in turn.
   */
  method ScanAccounts(accounts: map<AccountKey, Account>, log: seq<LoyaltyTx>, supplierNames: map<string, string>, order: seq<AccountKey>)
    returns (enriched: seq<AccountView>, activeTiers: map<TierId, nat>, totalSavings: real)
    requires forall k :: k in order ==> k in accounts
    ensures enriched == Views(accounts, supplierNames, order)
    ensures activeTiers == TierTally(accounts, order)
    ensures totalSavings == SumOf(order, SavingsOf(accounts, log))
  {
    enriched, activeTiers, totalSavings := [], map[], 0.0;
    var i := 0;
    while i < |order|
      invariant 0 <= i <= |order|
      invariant enriched == Views(accounts, supplierNames, order[..i])
      invariant activeTiers == TierTally(accounts, order[..i])
      invariant totalSavings == SumOf(order[..i], SavingsOf(accounts, log))
    {
      var acct := accounts[order[i]];
      ScanStep(accounts, log, supplierNames, order, i);
      enriched := enriched + [ViewOf(acct, supplierNames)];
      totalSavings := totalSavings + AccountSavings(log, acct.uid);
      activeTiers := Bump(activeTiers, acct.currentTier);
      i := i + 1;
    }
    assert order[..|order|] == order;
  }

  /** get_loyalty_summary over the restaurant's accounts, listed in the order the store returns them. */
  method GetLoyaltySummary(book: LoyaltyBook, supplierNames: map<string, string>, r: string, order: seq<AccountKey>)
    returns (s: LoyaltySummary)
    requires Distinct(order)
    requires forall k :: k in order <==> k in book.accounts && book.accounts[k].restaurantUid == r
    ensures s.totalSupplierAccounts == |order| && |s.accounts| == |order|
    ensures forall i :: 0 <= i < |order| ==> s.accounts[i] == ViewOf(book.accounts[order[i]], supplierNames)
    ensures s.activeTiers == TierTally(book.accounts, order)
    ensures s.totalSavings == Round2(SumOf(order, SavingsOf(book.accounts, book.log)))
    ensures s.totalLifetimeOrders == ISumOf(order, OrdersOf(book.accounts))
    ensures s.totalLifetimeSpent == Round2(SumOf(order, SpentOf(book.accounts)))
    ensures |order| == 0 ==> s.avgDiscountPct == 0.0
    ensures |order| > 0 ==> s.avgDiscountPct == Round2(SumOf(order, DiscountOf(book.accounts)) / (|order| as real))
  {
    var accounts := book.accounts;
    var enriched, activeTiers, totalSavings := ScanAccounts(accounts, book.log, supplierNames, order);
    var totalOrders := ISumOf(order, OrdersOf(accounts));
    var totalSpent := SumOf(order, SpentOf(accounts));
    var avgDiscount := if |order| > 0 then SumOf(order, DiscountOf(accounts)) / (|order| as real) else 0.0;
    s := LoyaltySummary(|order|, activeTiers, totalOrders, Round2(totalSpent), Round2(totalSavings),
                        if |order| > 0 then Round2(avgDiscount) else 0.0, enriched);
  }
}
