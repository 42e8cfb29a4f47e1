/**
 * The webhook listener (app/gateways/MeprStripeGateway.php:1073-1122): the
 * posted body is trusted only for its event id, the event is fetched again
 * from the processor, and its type picks the recording routine its
 * `data.object` is handed to.
 */
module Webhook {
  import opened Records
  import opened StripeClient
  import opened Reconcile

  /** A processor event, as fetched back by id. */
  datatype Event = Event(eventType: string, obj: Charge)

  /** The recording routine an event goes to. */
  datatype Route = Ignore | SubscriptionPayment | PaymentFailure | Refund | CancelSubscription

  const ChargeSucceeded := "charge.succeeded"
  const ChargeFailed := "charge.failed"
  const ChargeRefunded := "charge.refunded"
  const SubscriptionDeleted := "customer.subscription.deleted"

  /**
   * The dispatch chain. A succeeded charge with a description was made at
   * checkout and is already recorded; one without a description but with a
   * customer is a recurring payment. Disputes, trial endings, created and
   * updated subscriptions and every unknown type are ignored.
   */
  function RouteOf(e: Event): (r: Route)
    ensures r == SubscriptionPayment <==>
              e.eventType == ChargeSucceeded && e.obj.description.None? && e.obj.customer.Some?
    ensures r == PaymentFailure <==> e.eventType == ChargeFailed
    ensures r == Refund <==> e.eventType == ChargeRefunded
    ensures r == CancelSubscription <==> e.eventType == SubscriptionDeleted
    ensures e.eventType == ChargeSucceeded && e.obj.description.Some? ==> r == Ignore
  {
    if e.eventType == ChargeSucceeded then
      if e.obj.description.Some? then Ignore
      else if e.obj.customer.Some? then SubscriptionPayment
      else Ignore
    else if e.eventType == ChargeFailed then PaymentFailure
    else if e.eventType == ChargeRefunded then Refund
    else if e.eventType == SubscriptionDeleted then CancelSubscription
    else Ignore
  }

  /** The event acted on: none without an id in the body or when the re-fetch throws. */
  function Verified(bodyId: Option<string>, fetched: Response<Event>): (e: Option<Event>)
    ensures e.Some? <==> bodyId.Some? && Classify(true, fetched).Ok?
    ensures e.Some? ==> e.value == Classify(true, fetched).value
  {
    if bodyId.None? then None
    else match Classify(true, fetched)
      case Ok(event) => Some(event)
      case _ => None
  }

  /**
   * One webhook delivery. `firstTxn`, `zeroDecimal` and `customerFetch` are
   * what record_subscription_payment consults; the request carries no silent
   * or expire flag, so a deletion is recorded with notices.
   */
  function Delivered(l: Ledger, bodyId: Option<string>, fetched: Response<Event>,
                     firstTxn: string, zeroDecimal: bool, customerFetch: Response<CustomerData>): (r: Recorded)
    ensures Verified(bodyId, fetched).None? ==> r == Recorded(l, NotRecorded)
    ensures Verified(bodyId, fetched).Some? ==>
              var e := Verified(bodyId, fetched).value;
              && (RouteOf(e) == Ignore ==> r == Recorded(l, NotRecorded))
              && (RouteOf(e) == SubscriptionPayment ==>
                    r == SubscriptionPaymentRecorded(l, e.obj, firstTxn, zeroDecimal, customerFetch))
              && (RouteOf(e) == PaymentFailure ==> r == PaymentFailureRecorded(l, e.obj, firstTxn, zeroDecimal))
              && (RouteOf(e) == Refund ==> r == RefundRecorded(l, e.obj.id))
              && (RouteOf(e) == CancelSubscription ==> r == CancelRecorded(l, e.obj.customer, false, false))
  {
    match Verified(bodyId, fetched)
    case None => Recorded(l, NotRecorded)
    case Some(e) =>
      match RouteOf(e)
      case Ignore => Recorded(l, NotRecorded)
      case SubscriptionPayment => SubscriptionPaymentRecorded(l, e.obj, firstTxn, zeroDecimal, customerFetch)
      case PaymentFailure => PaymentFailureRecorded(l, e.obj, firstTxn, zeroDecimal)
      case Refund => RefundRecorded(l, e.obj.id)
      case CancelSubscription => CancelRecorded(l, e.obj.customer, false, false)
  }

  /**
   * Checkout completion and the charge.succeeded webhook for the same
   * charge, in either order, leave the same ledger: the webhook ignores a
   * charge that carries a description, and completion happens once.
   */
  lemma CheckoutRaceEitherOrder(l: Ledger, bodyId: Option<string>, fetched: Response<Event>,
                                firstTxn: string, zeroDecimal: bool, customerFetch: Response<CustomerData>,
                                lifetime: bool, prior: Option<string>, direction: Direction)
    requires Verified(bodyId, fetched).Some?
    requires Verified(bodyId, fetched).value.eventType == ChargeSucceeded
    requires Verified(bodyId, fetched).value.obj.description.Some?
    ensures var charge := Verified(bodyId, fetched).value.obj;
            var hookFirst := PaymentRecorded(Delivered(l, bodyId, fetched, firstTxn, zeroDecimal, customerFetch).after,
                                             charge, lifetime, prior, direction);
            var pageFirst := Delivered(PaymentRecorded(l, charge, lifetime, prior, direction),
                                       bodyId, fetched, firstTxn, zeroDecimal, customerFetch).after;
            && hookFirst == pageFirst
            && (charge.id in l.txns ==> hookFirst.txns[charge.id].status == Complete)
  {
  }

  /**
   * A webhook delivered twice leaves the ledger as one delivery does, for
   * every event except a failed charge (whose notice is sent again), unless
   * the first delivery threw.
   */
  lemma RedeliveryIdempotent(l: Ledger, bodyId: Option<string>, fetched: Response<Event>,
                             firstTxn: string, zeroDecimal: bool,
                             customerFetch: Response<CustomerData>, customerFetch2: Response<CustomerData>)
    requires Verified(bodyId, fetched).None? || RouteOf(Verified(bodyId, fetched).value) != PaymentFailure
    ensures var once := Delivered(l, bodyId, fetched, firstTxn, zeroDecimal, customerFetch);
            once.outcome.Threw?
            || Delivered(once.after, bodyId, fetched, firstTxn, zeroDecimal, customerFetch2).after == once.after
  {
    match Verified(bodyId, fetched)
    case None =>
    case Some(e) =>
      match RouteOf(e)
      case Ignore =>
      case SubscriptionPayment =>
        SubscriptionPaymentIdempotent(l, e.obj, firstTxn, zeroDecimal, customerFetch, customerFetch2);
      case Refund =>
        RefundIdempotent(l, e.obj.id);
      case CancelSubscription =>
        CancelIdempotent(l, e.obj.customer, false, false, false, false);
  }
}
