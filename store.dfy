/**
 * The persistent rows the API services share: payments, loyalty accounts
 * and the loyalty transaction log. Each table is an object whose fields the
 * services reassign, as the ORM session mutates rows in place; a commit is
 * not modelled separately. Times are seconds since the epoch.
 */
module Store {
  import opened Common

  /** An HTTP error raised by an endpoint, by status code. */
  datatype HttpError = HttpError(status: nat)

  datatype PaymentStatus = Pending | Processing | Succeeded | Failed | Refunded

  datatype Payment = Payment(
    uid: string,
    restaurantUid: string,
    supplierUid: Option<string>,
    procurementOrderUid: Option<string>,
    stripeSessionId: Option<string>,
    stripePaymentIntentId: Option<string>,
    amount: real,
    supplierAmount: real,
    forkastFee: real,
    forkastFeePct: real,
    currency: string,
    status: PaymentStatus,
    description: string,
    receiptUrl: Option<string>,
    refundId: Option<string>,
    refundAmount: Option<real>,
    createdAt: int,
    updatedAt: int)

  /** The payments table, in insertion order. */
  class PaymentTable {
    var rows: seq<Payment>

    constructor()
      ensures rows == []
    {
      rows := [];
    }
  }

  /** A loyalty account is identified by its (restaurant, supplier) pair. */
  type AccountKey = (string, string)

  /**
   * The tier an account is in. The column holds the tier's name; the only
   * writers are the loyalty operations, which store one of these five.
   */
  datatype TierId = Standard | Bronze | Silver | Gold | Platinum

  datatype Account = Account(
    uid: string,
    restaurantUid: string,
    supplierUid: string,
    currentTier: TierId,
    orders90d: int,
    totalOrders: int,
    totalSpent: real,
    discountPct: real,
    effectiveFee: real,
    lastEvaluated: int,
    createdAt: int,
    updatedAt: int)

  datatype EventType = PaymentCompleted | TierUpgrade | TierDowngrade

  datatype LoyaltyTx = LoyaltyTx(
    accountUid: string,
    eventType: EventType,
    paymentUid: Option<string>,
    orderCount: int,
    oldTier: TierId,
    newTier: TierId,
    amount: real,
    discountApplied: real,
    createdAt: int)

  /**
   * The loyalty tables: accounts keyed by their pair (the table's unique
   * constraint on restaurant and supplier) and the append-only transaction log.
   */
  class LoyaltyBook {
    var accounts: map<AccountKey, Account>
    var log: seq<LoyaltyTx>

    constructor()
      ensures accounts == map[] && log == []
    {
      accounts := map[];
      log := [];
    }
  }
}
