/**
 * The payment endpoints: checkout creation with the tier-dependent fee
 * split, the Stripe webhook that settles or expires a checkout and hands a
 * settled supplier payment to the loyalty engine, and refunds. Stripe itself
 * is not modelled: whether it is configured, the session it creates, the
 * event a webhook delivers (or a bad signature) and the refund it issues are
 * parameters.
 */
module Payments {
  import opened Common
  import opened Store
  import opened Loyalty

  /** A checkout request; the amount is what the supplier is to receive. */
  datatype CheckoutRequest = CheckoutRequest(
    restaurantUid: string,
    supplierUid: Option<string>,
    procurementOrderUid: Option<string>,
    amount: real,
    currency: string,
    description: string)

  /** The three amounts of a checkout: the supplier's share, the platform fee and the total charged. */
  datatype FeeSplit = FeeSplit(supplierAmount: real, fee: real, total: real)

  /** The fee breakdown of create_checkout at a fee percentage. */
  function SplitFee(amount: real, feePct: real): FeeSplit {
    var supplier := Round2(amount);
    var fee := Round2(supplier * feePct / 100.0);
    FeeSplit(supplier, fee, Round2(supplier + fee))
  }

  /**
   * The split is exact: the total charged is the supplier's share plus the
   * fee to the cent, each within half a cent of its unrounded value.
   */
  lemma SplitFeeFacts(amount: real, feePct: real)
    ensures var s := SplitFee(amount, feePct);
      && s.total == s.supplierAmount + s.fee
      && amount - 0.005 < s.supplierAmount <= amount + 0.005
      && s.supplierAmount * feePct / 100.0 - 0.005 < s.fee <= s.supplierAmount * feePct / 100.0 + 0.005
  {
    var x := Round2(amount) * feePct / 100.0;
    Round2OfRoundedSum(amount, x);
    Round2Error(amount);
    Round2Error(x);
  }

  /** For a non-negative amount and percentage no part of the split is negative. */
  lemma SplitFeeNonnegative(amount: real, feePct: real)
    requires 0.0 <= amount && 0.0 <= feePct
    ensures var s := SplitFee(amount, feePct);
      0.0 <= s.supplierAmount && 0.0 <= s.fee && s.supplierAmount <= s.total
  {
    var supplier := Round2(amount);
    Round2Nonnegative(amount);
    assert 0.0 <= supplier * feePct;
    Round2Nonnegative(supplier * feePct / 100.0);
    SplitFeeFacts(amount, feePct);
  }

  /** The loyalty discount a settled payment records: what the fee saved against the default. */
  function DiscountSaved(supplierAmount: real, feePct: real): real {
    Round2(supplierAmount * (DefaultFee - feePct) / 100.0)
  }

  /** A payment at the default fee saved nothing; one at a loyalty fee saved at least nothing. */
  lemma DiscountSavedFacts(supplierAmount: real, feePct: real)
    ensures feePct == DefaultFee ==> DiscountSaved(supplierAmount, feePct) == 0.0
    ensures 0.0 <= supplierAmount && feePct <= DefaultFee ==> 0.0 <= DiscountSaved(supplierAmount, feePct)
  {
    if feePct == DefaultFee {
      Round2OfCents(0);
    }
    if 0.0 <= supplierAmount && feePct <= DefaultFee {
      assert 0.0 <= supplierAmount * (DefaultFee - feePct);
      Round2Nonnegative(supplierAmount * (DefaultFee - feePct) / 100.0);
    }
  }

  /** The row create_checkout inserts, before Stripe is called. */
  function PendingPayment(req: CheckoutRequest, uid: string, feePct: real, now: int): (p: Payment)
    ensures p.status == Pending && p.amount == SplitFee(req.amount, feePct).total
    ensures p.supplierAmount == SplitFee(req.amount, feePct).supplierAmount && p.forkastFee == SplitFee(req.amount, feePct).fee
  {
    var split := SplitFee(req.amount, feePct);
    Payment(uid, req.restaurantUid, req.supplierUid, req.procurementOrderUid, None, None,
            split.total, split.supplierAmount, split.fee, feePct, req.currency, Pending, req.description,
            None, None, None, now, now)
  }

  /** update_payment with a status only. */
  function WithStatus(p: Payment, status: PaymentStatus, now: int): Payment {
    p.(status := status, updatedAt := now)
  }

  /**
   * create_checkout. Without Stripe it answers 503 before touching anything.
   * Otherwise it looks the fee up (re-evaluating the pair's loyalty account),
   * inserts a pending payment charging the supplier amount plus the fee, and
   * then either marks it failed with 502 when Stripe refuses the session, or
   * stores the session and marks it processing.
   */
  method CreateCheckout(payments: PaymentTable, book: LoyaltyBook, req: CheckoutRequest, uid: string, now: int,
                        configured: bool, session: Option<string>)
    returns (res: Result<Payment, HttpError>)
    modifies payments, book
    ensures !configured ==>
      res == Err(HttpError(503)) && payments.rows == old(payments.rows)
      && book.accounts == old(book.accounts) && book.log == old(book.log)
    ensures configured ==>
      var pct := EffectiveFee(old(book.accounts), old(payments.rows), req.restaurantUid, req.supplierUid, now);
      var p := PendingPayment(req, uid, pct, now);
      && book.accounts == FeeLookupAccounts(old(book.accounts), old(payments.rows), req.restaurantUid, req.supplierUid, now)
      && book.log == old(book.log) + FeeLookupLog(old(book.accounts), old(payments.rows), req.restaurantUid, req.supplierUid, now)
      && (session.None? ==> res == Err(HttpError(502)) && payments.rows == old(payments.rows) + [WithStatus(p, Failed, now)])
      && (session.Some? ==>
            var q := p.(stripeSessionId := session, status := Processing, updatedAt := now);
            res == Ok(q) && payments.rows == old(payments.rows) + [q])
  {
    if !configured {
      return Err(HttpError(503));
    }
    var feePct := GetEffectiveFee(payments, book, req.restaurantUid, req.supplierUid, now);
    var split := SplitFee(req.amount, feePct);
    var p := Payment(uid, req.restaurantUid, req.supplierUid, req.procurementOrderUid, None, None,
                     split.total, split.supplierAmount, split.fee, feePct, req.currency, Pending, req.description,
                     None, None, None, now, now);
    var idx := |payments.rows|;
    payments.rows := payments.rows + [p];
    if session.None? {
      payments.rows := payments.rows[idx := WithStatus(p, Failed, now)];
      return Err(HttpError(502));
    }
    p := p.(stripeSessionId := session, status := Processing, updatedAt := now);
    payments.rows := payments.rows[idx := p];
    res := Ok(p);
  }

  /** A verified webhook event; a bad signature yields none. */
  datatype WebhookEvent =
    | SessionCompleted(sessionId: string, paymentIntent: Option<string>, receiptUrl: Option<string>)
    | SessionExpired(sessionId: string)
    | OtherEvent

  datatype Ack = Received

  /** get_payment_by_session_id: the first payment carrying the session. */
  function BySession(rows: seq<Payment>, sessionId: string): Option<nat> {
    FirstIndex(rows, (p: Payment) => p.stripeSessionId == Some(sessionId))
  }

  /** get_payment_by_uid: the first payment with the uid. */
  function ByUid(rows: seq<Payment>, uid: string): Option<nat> {
    FirstIndex(rows, (p: Payment) => p.uid == uid)
  }

  /** A completed session's payment: succeeded, with Stripe's intent and receipt. */
  function Settled(p: Payment, e: WebhookEvent, now: int): Payment
    requires e.SessionCompleted?
  {
    p.(status := Succeeded, stripePaymentIntentId := e.paymentIntent, receiptUrl := e.receiptUrl, updatedAt := now)
  }

  /**
   * The loyalty effect of settling payment p: none without a supplier;
   * otherwise record_payment for its supplier amount and saved discount,
   * counted against the given payments.
   */
  ghost predicate LoyaltyRecorded(accounts0: map<AccountKey, Account>, log0: seq<LoyaltyTx>,
                                  accounts: map<AccountKey, Account>, log: seq<LoyaltyTx>,
                                  rows: seq<Payment>, p: Payment, accountUid: string, now: int) {
    && (!Present(p.supplierUid) ==> accounts == accounts0 && log == log0)
    && (Present(p.supplierUid) ==>
          var a0 := AccountBefore(accounts0, p.restaurantUid, p.supplierUid.value, accountUid, now);
          var c := AccountCount(rows, a0, now);
          && accounts == accounts0[(p.restaurantUid, p.supplierUid.value) := Evaluated(Credited(a0, p.supplierAmount), c, now)]
          && log == log0 + PaymentLog(Credited(a0, p.supplierAmount), c, p.uid, p.supplierAmount,
                                      DiscountSaved(p.supplierAmount, p.forkastFeePct), now))
  }

  /**
   * The webhook marks the session's payment succeeded. A payment with a
   * supplier is then recorded with the loyalty engine, against the payments
   * as they stand after the update.
   */
  method SettleSession(payments: PaymentTable, book: LoyaltyBook, e: WebhookEvent, i: nat, accountUid: string, now: int)
    requires e.SessionCompleted? && i < |payments.rows|
    modifies payments, book
    ensures payments.rows == old(payments.rows)[i := Settled(old(payments.rows[i]), e, now)]
    ensures LoyaltyRecorded(old(book.accounts), old(book.log), book.accounts, book.log, payments.rows, old(payments.rows[i]), accountUid, now)
  {
    var p := Settled(payments.rows[i], e, now);
    payments.rows := payments.rows[i := p];
    if Present(p.supplierUid) {
      var discount := DiscountSaved(p.supplierAmount, p.forkastFeePct);
      RecordPayment(payments, book, p.restaurantUid, p.supplierUid.value, p.uid, p.supplierAmount, discount, accountUid, now);
    }
  }

  /**
   * stripe_webhook. A bad signature answers 400 and changes nothing; every
   * verified event is acknowledged. A completed session settles its payment
   * whatever its status was (so a repeated event records the loyalty payment
   * again); an expired one marks it failed; an unknown session or another
   * event type changes nothing.
   */
  method StripeWebhook(payments: PaymentTable, book: LoyaltyBook, event: Option<WebhookEvent>, accountUid: string, now: int)
    returns (res: Result<Ack, HttpError>)
    modifies payments, book
    ensures event.None? <==> res == Err(HttpError(400))
    ensures event.Some? ==> res == Ok(Received)
    ensures event.None? || event.value.OtherEvent? || BySession(old(payments.rows), event.value.sessionId).None? ==>
      payments.rows == old(payments.rows) && book.accounts == old(book.accounts) && book.log == old(book.log)
    ensures event.Some? && event.value.SessionExpired? && BySession(old(payments.rows), event.value.sessionId).Some? ==>
      var i := BySession(old(payments.rows), event.value.sessionId).value;
      && payments.rows == old(payments.rows)[i := WithStatus(old(payments.rows[i]), Failed, now)]
      && book.accounts == old(book.accounts) && book.log == old(book.log)
    ensures event.Some? && event.value.SessionCompleted? && BySession(old(payments.rows), event.value.sessionId).Some? ==>
      var i := BySession(old(payments.rows), event.value.sessionId).value;
      && payments.rows == old(payments.rows)[i := Settled(old(payments.rows[i]), event.value, now)]
      && LoyaltyRecorded(old(book.accounts), old(book.log), book.accounts, book.log, payments.rows, old(payments.rows[i]), accountUid, now)
  {
    if event.None? {
      return Err(HttpError(400));
    }
    var e := event.value;
    if e.SessionCompleted? {
      var i := BySession(payments.rows, e.sessionId);
      if i.Some? {
        SettleSession(payments, book, e, i.value, accountUid, now);
      }
    } else if e.SessionExpired? {
      var i := BySession(payments.rows, e.sessionId);
      if i.Some? {
        payments.rows := payments.rows[i.value := WithStatus(payments.rows[i.value], Failed, now)];
      }
    }
    res := Ok(Received);
  }

  /**
   * refund_payment. The guards are checked in order: an unknown payment is
   * 404, one not succeeded is 400, one without a payment intent is 400, and a
   * refund Stripe refuses is 502; each leaves the payments as they were.
   * Otherwise the payment is refunded in full.
   */
  method RefundPayment(payments: PaymentTable, uid: string, refund: Option<string>, now: int)
    returns (res: Result<Payment, HttpError>)
    modifies payments
    ensures var i := ByUid(old(payments.rows), uid);
      && (i.None? ==> res == Err(HttpError(404)))
      && (i.Some? && old(payments.rows[i.value]).status != Succeeded ==> res == Err(HttpError(400)))
      && (i.Some? && old(payments.rows[i.value]).status == Succeeded && !Present(old(payments.rows[i.value]).stripePaymentIntentId) ==>
            res == Err(HttpError(400)))
      && ((i.Some? && old(payments.rows[i.value]).status == Succeeded && Present(old(payments.rows[i.value]).stripePaymentIntentId)
           && refund.None?) ==> res == Err(HttpError(502)))
    ensures res.Err? ==> payments.rows == old(payments.rows)
    ensures res.Ok? <==> ByUid(old(payments.rows), uid).Some? && refund.Some?
                         && old(payments.rows)[ByUid(old(payments.rows), uid).value].status == Succeeded
                         && Present(old(payments.rows)[ByUid(old(payments.rows), uid).value].stripePaymentIntentId)
    ensures res.Ok? ==>
      var i := ByUid(old(payments.rows), uid).value;
      var p := old(payments.rows[i]);
      var q := p.(status := Refunded, refundId := refund, refundAmount := Some(p.amount), updatedAt := now);
      res == Ok(q) && payments.rows == old(payments.rows)[i := q]
  {
    var i := ByUid(payments.rows, uid);
    if i.None? {
      return Err(HttpError(404));
    }
    var p := payments.rows[i.value];
    if p.status != Succeeded {
      return Err(HttpError(400));
    }
    if !Present(p.stripePaymentIntentId) {
      return Err(HttpError(400));
    }
    if refund.None? {
      return Err(HttpError(502));
    }
    p := p.(status := Refunded, refundId := refund, refundAmount := Some(p.amount), updatedAt := now);
    payments.rows := payments.rows[i.value := p];
    res := Ok(p);
  }
}
