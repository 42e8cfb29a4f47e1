/**
 * The values the Stripe gateway reads and writes: local transactions and
 * subscriptions, the processor's charge and customer objects, and the log of
 * notices and collaborator hooks the recording routines fire.
 *
 * Amounts are integers in hundredths of the shop currency's major unit
 * (15.00 is 1500), the fixed-point form of the plugin's two-decimal floats.
 */
module Records {

  datatype Option<+T> = None | Some(value: T)

  /** MeprTransaction statuses used by the gateway. */
  datatype TxnStatus = Pending | Complete | Failed | Refunded | Confirmed

  /** MeprTransaction::$payment_str and $subscription_confirmation_str. */
  datatype TxnType = Payment | SubscriptionConfirmation

  /** MeprSubscription statuses used by the gateway. */
  datatype SubStatus = SubPending | Active | Suspended | Cancelled

  /** A product's billing period type; anything but the three below is Other. */
  datatype PeriodType = Weeks | Months | Years | Other(name: string)

  /** A local transaction row; its key in the ledger is its trans_num. */
  datatype Txn = Txn(
    userId: nat,
    productId: nat,
    couponId: nat,
    subscription: Option<string>,  // subscr_id of the subscription it belongs to
    status: TxnStatus,
    kind: TxnType,
    total: nat,
    expiresAt: int)

  /** The card summary a subscription caches. */
  datatype CardInfo = CardInfo(last4: string, expMonth: nat, expYear: nat)

  /** A local subscription row; its key in the ledger is its subscr_id. */
  datatype Sub = Sub(
    postId: string,  // the local record id, as the decimal string used in plan ids
    userId: nat,
    productId: nat,
    status: SubStatus,
    trial: bool,
    trialDays: int,
    trialAmount: nat,
    card: CardInfo,
    periodType: PeriodType,
    period: nat,
    price: nat,
    expiresAt: int)

  /** A card (or card source) object as the processor returns it. */
  datatype Card = Card(id: string, obj: string, last4: string, expMonth: nat, expYear: nat)

  /**
   * A charge object, and more generally the `data.object` of a webhook event:
   * only the fields the gateway reads are kept.
   */
  datatype Charge = Charge(
    id: string,
    customer: Option<string>,
    description: Option<string>,
    amount: nat,
    source: Option<Card>,
    card: Option<Card>)

  /**
   * A customer object across processor API versions: `default_source` with
   * `sources` (2015-02-15 on), `default_card` with `cards` (2013-07-05 on), and
   * the older `active_card`.
   */
  datatype CustomerData = CustomerData(
    id: string,
    defaultSource: Option<string>,
    sources: seq<Card>,
    defaultCard: Option<string>,
    cards: seq<Card>,
    activeCard: Option<Card>)

  /** How a purchase relates to the subscription it supersedes. */
  datatype Change = NewSignup | Upgrade | Downgrade

  /** The order of the new product against the prior one, as the membership rules rank them. */
  datatype Direction = Higher | Lower | Level

  /** Everything the recording routines send or announce, in order. */
  datatype Notice =
    | Lifecycle(change: Change, key: string)        // new_sub / upgraded_sub / downgraded_sub hooks
    | TxnChangeNotice(change: Change, txn: string)  // send_upgraded/downgraded_txn_notices
    | SubChangeNotice(change: Change, sub: string)  // send_new/upgraded/downgraded_sub_notices
    | Welcome(txn: string)
    | Signup(txn: string)
    | Receipt(txn: string)
    | CardExpiring(txn: string)
    | PaymentFailed(txn: string)
    | RefundIssued(txn: string)
    | SubCancelled(sub: string)
    | SubSuspended(sub: string)
    | SubResumed(sub: string)
    | LimitCycles(sub: string)     // MeprSubscription::limit_payment_cycles
    | LimitReached(sub: string)    // MeprSubscription::limit_reached_actions
    | ExpireTxns(sub: string)      // MeprSubscription::expire_txns

  /** The ledger the gateway reconciles: both tables and the notice log. */
  datatype Ledger = Ledger(txns: map<string, Txn>, subs: map<string, Sub>, notices: seq<Notice>)

  /** MeprUtils::days: a whole number of days in seconds. */
  function Days(n: int): (s: int)
    ensures n >= 0 ==> s >= 0
    ensures s % 86400 == 0 && s / 86400 == n
  {
    n * 86400
  }
}
