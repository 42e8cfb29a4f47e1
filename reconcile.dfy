/**
 * What each recording routine of the Stripe gateway does to the ledger, as
 * functions from the ledger before to the ledger after
 * (app/gateways/MeprStripeGateway.php:157-386, :491-559, :621-640,
 * :696-784). The gateway class performs the same steps in place and is
 * proved to agree with these functions; the lemmas here state what the
 * routines promise across calls: a second delivery changes nothing, and the
 * checkout and webhook paths may arrive in either order.
 */
module Reconcile {
  import opened Records
  import opened StripeClient
  import opened Cards
  import Currency

  /** What a routine returned: `false`, the record it matched or created, or a throw. */
  datatype Outcome = NotRecorded | RecordedAs(key: string) | Threw(error: GatewayError)

  /** A ledger after a routine, with the routine's outcome. */
  datatype Recorded = Recorded(after: Ledger, outcome: Outcome)

  // ---------------------------------------------------------------------
  // Collaborators: upgrade classification and cancelling the old subscription
  // ---------------------------------------------------------------------

  /** The prior subscription is still there to compare against: present and not cancelled. */
  predicate PriorVisible(subs: map<string, Sub>, prior: Option<string>)
  {
    prior.Some? && prior.value in subs && subs[prior.value].status != Cancelled
  }

  /**
   * is_upgrade / is_downgrade: a purchase is an upgrade or downgrade only
   * against a prior subscription that has not been cancelled.
   */
  function ChangeOf(subs: map<string, Sub>, prior: Option<string>, direction: Direction): (c: Change)
    ensures c == Upgrade <==> PriorVisible(subs, prior) && direction == Higher
    ensures c == Downgrade <==> PriorVisible(subs, prior) && direction == Lower
  {
    if !PriorVisible(subs, prior) then NewSignup
    else match direction
      case Higher => Upgrade
      case Lower => Downgrade
      case Level => NewSignup
  }

  /** maybe_cancel_old_sub: the superseded subscription, if any and not the purchase's own, is cancelled. */
  function CancelPrior(subs: map<string, Sub>, prior: Option<string>, own: Option<string>): (r: map<string, Sub>)
    ensures r.Keys == subs.Keys
    ensures forall k :: k in subs && Some(k) != prior ==> r[k] == subs[k]
    ensures prior.Some? && prior.value in subs && prior != own ==>
              r[prior.value] == subs[prior.value].(status := Cancelled)
    ensures prior == own ==> r == subs
  {
    if prior.Some? && prior.value in subs && prior != own
    then subs[prior.value := subs[prior.value].(status := Cancelled)]
    else subs
  }

  /**
   * The ordering the source depends on: classifying after the old
   * subscription is cancelled would call every upgrade or downgrade a new
   * signup, so the classification has to come first.
   */
  lemma ClassifyBeforeCancel(subs: map<string, Sub>, prior: Option<string>, own: Option<string>, direction: Direction)
    requires PriorVisible(subs, prior) && prior != own && direction != Level
    ensures ChangeOf(subs, prior, direction) != NewSignup
    ensures ChangeOf(CancelPrior(subs, prior, own), prior, direction) == NewSignup
  {
  }

  /** The coupon of a subscription's first transaction, 0 when there is none. */
  function CouponOf(txns: map<string, Txn>, firstTxn: string): (coupon: nat)
    ensures firstTxn in txns ==> coupon == txns[firstTxn].couponId
    ensures firstTxn !in txns ==> coupon == 0
  {
    if firstTxn in txns then txns[firstTxn].couponId else 0
  }

  // ---------------------------------------------------------------------
  // record_payment
  // ---------------------------------------------------------------------

  /**
   * The notices of a completed one-off payment: lifecycle hooks, change
   * notices, welcome and signup only for lifetime products; receipt and
   * card expiry always.
   */
  function PaymentNotices(key: string, change: Change, lifetime: bool): (ns: seq<Notice>)
    ensures |ns| >= 2 && ns[|ns| - 2..] == [Receipt(key), CardExpiring(key)]
    ensures Welcome(key) in ns <==> lifetime
    ensures Signup(key) in ns <==> lifetime
    ensures Lifecycle(change, key) in ns <==> lifetime
    ensures |ns| == (if lifetime then (if change == NewSignup then 5 else 6) else 2)
    ensures TxnChangeNotice(change, key) in ns <==> lifetime && change != NewSignup
  {
    (if lifetime then
       [Lifecycle(change, key)]
       + (if change == NewSignup then [] else [TxnChangeNotice(change, key)])
       + [Welcome(key), Signup(key)]
     else [])
    + [Receipt(key), CardExpiring(key)]
  }

  /**
   * record_payment (app/gateways/MeprStripeGateway.php:295-348). `lifetime`
   * is the period type of the transaction's product, `prior` and
   * `direction` what the membership rules say about the subscription the
   * purchase supersedes.
   */
  function PaymentRecorded(l: Ledger, charge: Charge, lifetime: bool, prior: Option<string>, direction: Direction): (l': Ledger)
    ensures charge.id !in l.txns || l.txns[charge.id].status == Complete ==> l' == l
    ensures charge.id in l.txns && l.txns[charge.id].status != Complete ==>
              var txn := l.txns[charge.id];
              && l'.txns == l.txns[charge.id := txn.(status := Complete)]
              && l'.subs == CancelPrior(l.subs, prior, txn.subscription)
              && l'.notices == l.notices + PaymentNotices(charge.id, ChangeOf(l.subs, prior, direction), lifetime)
    ensures charge.id in l.txns ==> charge.id in l'.txns && l'.txns[charge.id].status == Complete
  {
    if charge.id !in l.txns || l.txns[charge.id].status == Complete then l
    else
      var txn := l.txns[charge.id];
      var change := ChangeOf(l.subs, prior, direction);
      Ledger(l.txns[charge.id := txn.(status := Complete)],
             CancelPrior(l.subs, prior, txn.subscription),
             l.notices + PaymentNotices(charge.id, change, lifetime))
  }

  /** A second completion of the same charge changes nothing and sends nothing. */
  lemma PaymentIdempotent(l: Ledger, charge: Charge, lifetime: bool, prior: Option<string>, direction: Direction,
                          lifetime2: bool, prior2: Option<string>, direction2: Direction)
    ensures var once := PaymentRecorded(l, charge, lifetime, prior, direction);
            PaymentRecorded(once, charge, lifetime2, prior2, direction2) == once
  {
  }

  // ---------------------------------------------------------------------
  // record_subscription_payment
  // ---------------------------------------------------------------------

  /**
   * record_subscription_payment (app/gateways/MeprStripeGateway.php:162-236).
   * `firstTxn` names the subscription's first transaction; `customerFetch` is
   * the processor's answer to the customer fetch the routine makes before it
   * stores anything.
   */
  function SubscriptionPaymentRecorded(l: Ledger, charge: Charge, firstTxn: string, zeroDecimal: bool,
                                       customerFetch: Response<CustomerData>): (r: Recorded)
    ensures charge.customer.None? || charge.customer.value !in l.subs || charge.id in l.txns ==>
              r == Recorded(l, NotRecorded)
    ensures charge.customer.Some? && charge.customer.value in l.subs && charge.id !in l.txns ==>
              r.outcome == (if Classify(true, customerFetch).Raised? then Threw(Classify(true, customerFetch).error)
                            else RecordedAs(charge.id))
    ensures r.outcome.Threw? ==> r.after == l
    ensures r.outcome.RecordedAs? ==>
              var c := charge.customer.value;
              && r.outcome.key == charge.id
              && charge.id !in l.txns && c in l.subs
              && r.after.txns.Keys == l.txns.Keys + {charge.id}
              && r.after.txns - {charge.id} == l.txns
              && r.after.txns[charge.id].status == Complete
              && r.after.txns[charge.id].subscription == Some(c)
              && r.after.txns[charge.id].total == Currency.Decode(zeroDecimal, charge.amount)
              && r.after.txns[charge.id].userId == l.subs[c].userId
              && r.after.txns[charge.id].productId == l.subs[c].productId
              && r.after.txns[charge.id].couponId == CouponOf(l.txns, firstTxn)
              && r.after.subs.Keys == l.subs.Keys
              && r.after.subs - {c} == l.subs - {c}
              && r.after.subs[c] == l.subs[c].(status := Active, card := Cached(l.subs[c].card, GetCard(charge)))
              && r.after.notices == l.notices + [LimitCycles(c), Receipt(charge.id), CardExpiring(charge.id)]
    ensures r.outcome != NotRecorded || r.after == l
  {
    if charge.customer.None? || charge.customer.value !in l.subs || charge.id in l.txns then
      Recorded(l, NotRecorded)
    else
      var reply := Classify(true, customerFetch);
      if reply.Raised? then Recorded(l, Threw(reply.error))
      else
        var c := charge.customer.value;
        var sub := l.subs[c];
        var txn := Txn(sub.userId, sub.productId, CouponOf(l.txns, firstTxn), Some(c), Complete, Payment,
                       Currency.Decode(zeroDecimal, charge.amount), 0);
        var sub' := sub.(status := Active, card := Cached(sub.card, GetCard(charge)));
        var l' := Ledger(l.txns[charge.id := txn], l.subs[c := sub'],
                         l.notices + [LimitCycles(c), Receipt(charge.id), CardExpiring(charge.id)]);
        assert l'.txns - {charge.id} == l.txns;
        Recorded(l', RecordedAs(charge.id))
  }

  /**
   * A recurring charge delivered twice is recorded once: unless the first
   * delivery threw, the second finds the transaction and does nothing.
   */
  lemma SubscriptionPaymentIdempotent(l: Ledger, charge: Charge, firstTxn: string, zeroDecimal: bool,
                                      fetch: Response<CustomerData>, fetch2: Response<CustomerData>)
    ensures var once := SubscriptionPaymentRecorded(l, charge, firstTxn, zeroDecimal, fetch);
            once.outcome.Threw?
            || SubscriptionPaymentRecorded(once.after, charge, firstTxn, zeroDecimal, fetch2) == Recorded(once.after, NotRecorded)
  {
  }

  // ---------------------------------------------------------------------
  // record_payment_failure
  // ---------------------------------------------------------------------

  /** record_payment_failure (app/gateways/MeprStripeGateway.php:239-288). */
  function PaymentFailureRecorded(l: Ledger, charge: Charge, firstTxn: string, zeroDecimal: bool): (r: Recorded)
    ensures charge.id in l.txns ==>
              && r.outcome == RecordedAs(charge.id)
              && r.after.txns == l.txns[charge.id := l.txns[charge.id].(status := Failed)]
              && r.after.subs == l.subs
              && r.after.notices == l.notices + [PaymentFailed(charge.id)]
    ensures charge.id !in l.txns && charge.customer.Some? && charge.customer.value in l.subs ==>
              var c := charge.customer.value;
              && r.outcome == RecordedAs(charge.id)
              && r.after.txns.Keys == l.txns.Keys + {charge.id}
              && r.after.txns - {charge.id} == l.txns
              && r.after.txns[charge.id].status == Failed
              && r.after.txns[charge.id].kind == Payment
              && r.after.txns[charge.id].subscription == Some(c)
              && r.after.txns[charge.id].userId == l.subs[c].userId
              && r.after.txns[charge.id].productId == l.subs[c].productId
              && r.after.txns[charge.id].couponId == CouponOf(l.txns, firstTxn)
              && r.after.txns[charge.id].total == Currency.Decode(zeroDecimal, charge.amount)
              && r.after.subs == l.subs[c := l.subs[c].(status := Active)]
              && r.after.notices == l.notices + [ExpireTxns(c), PaymentFailed(charge.id)]
    ensures r.outcome == NotRecorded <==> charge.id !in l.txns && (charge.customer.None? || charge.customer.value !in l.subs)
    ensures r.outcome == NotRecorded ==> r.after == l
    ensures PaymentFailed(charge.id) in r.after.notices[|l.notices|..] <==> r.outcome != NotRecorded
  {
    if charge.id in l.txns then
      Recorded(Ledger(l.txns[charge.id := l.txns[charge.id].(status := Failed)], l.subs,
                      l.notices + [PaymentFailed(charge.id)]),
               RecordedAs(charge.id))
    else if charge.customer.Some? && charge.customer.value in l.subs then
      var c := charge.customer.value;
      var sub := l.subs[c];
      var txn := Txn(sub.userId, sub.productId, CouponOf(l.txns, firstTxn), Some(c), Failed, Payment,
                     Currency.Decode(zeroDecimal, charge.amount), 0);
      var l' := Ledger(l.txns[charge.id := txn], l.subs[c := sub.(status := Active)],
                       l.notices + [ExpireTxns(c), PaymentFailed(charge.id)]);
      assert l'.txns - {charge.id} == l.txns;
      Recorded(l', RecordedAs(charge.id))
    else
      Recorded(l, NotRecorded)
  }

  /**
   * A failure delivered twice leaves the tables as one delivery does, but
   * the routine has no short-circuit: the failure notice goes out again.
   */
  lemma PaymentFailureRedelivered(l: Ledger, charge: Charge, firstTxn: string, zeroDecimal: bool)
    requires charge.id in l.txns || (charge.customer.Some? && charge.customer.value in l.subs)
    ensures var once := PaymentFailureRecorded(l, charge, firstTxn, zeroDecimal).after;
            var twice := PaymentFailureRecorded(once, charge, firstTxn, zeroDecimal).after;
            && twice.txns == once.txns && twice.subs == once.subs
            && twice.notices == once.notices + [PaymentFailed(charge.id)]
  {
    var once := PaymentFailureRecorded(l, charge, firstTxn, zeroDecimal).after;
    assert charge.id in once.txns;
    assert once.txns[charge.id].status == Failed;
    assert once.txns[charge.id := once.txns[charge.id].(status := Failed)] == once.txns;
  }

  // ---------------------------------------------------------------------
  // record_refund
  // ---------------------------------------------------------------------

  /** record_refund (app/gateways/MeprStripeGateway.php:364-386). */
  function RefundRecorded(l: Ledger, chargeId: string): (r: Recorded)
    ensures chargeId !in l.txns <==> r.outcome == NotRecorded
    ensures chargeId !in l.txns || l.txns[chargeId].status == Refunded ==> r.after == l
    ensures chargeId in l.txns ==> r.outcome == RecordedAs(chargeId)
    ensures chargeId in l.txns && l.txns[chargeId].status != Refunded ==>
              && r.after.txns == l.txns[chargeId := l.txns[chargeId].(status := Refunded)]
              && r.after.subs == l.subs
              && r.after.notices == l.notices + [RefundIssued(chargeId)]
  {
    if chargeId !in l.txns then Recorded(l, NotRecorded)
    else if l.txns[chargeId].status == Refunded then Recorded(l, RecordedAs(chargeId))
    else Recorded(Ledger(l.txns[chargeId := l.txns[chargeId].(status := Refunded)], l.subs,
                         l.notices + [RefundIssued(chargeId)]),
                  RecordedAs(chargeId))
  }

  /**
   * The checkout refund and the charge.refunded webhook both record the
   * refund; whichever comes second returns the same id and changes nothing.
   */
  lemma RefundIdempotent(l: Ledger, chargeId: string)
    ensures var once := RefundRecorded(l, chargeId);
            RefundRecorded(once.after, chargeId) == once
  {
  }

  // ---------------------------------------------------------------------
  // record_suspend_subscription and record_cancel_subscription
  // ---------------------------------------------------------------------

  /**
   * record_suspend_subscription (app/gateways/MeprStripeGateway.php:624-640):
   * returns the subscription only when it was already suspended.
   */
  function SuspendRecorded(l: Ledger, customer: Option<string>): (r: Recorded)
    ensures customer.None? || customer.value !in l.subs ==> r == Recorded(l, NotRecorded)
    ensures customer.Some? && customer.value in l.subs && l.subs[customer.value].status == Suspended ==>
              r == Recorded(l, RecordedAs(customer.value))
    ensures customer.Some? && customer.value in l.subs && l.subs[customer.value].status != Suspended ==>
              var c := customer.value;
              && r.outcome == NotRecorded
              && r.after.txns == l.txns
              && r.after.subs == l.subs[c := l.subs[c].(status := Suspended)]
              && r.after.notices == l.notices + [SubSuspended(c)]
  {
    if customer.None? || customer.value !in l.subs then Recorded(l, NotRecorded)
    else
      var c := customer.value;
      if l.subs[c].status == Suspended then Recorded(l, RecordedAs(c))
      else Recorded(Ledger(l.txns, l.subs[c := l.subs[c].(status := Suspended)], l.notices + [SubSuspended(c)]),
                    NotRecorded)
  }

  /** The notices of a cancellation: limit-reached actions when asked to expire, the cancelled notice unless silent. */
  function CancelNotices(c: string, silent: bool, expire: bool): (ns: seq<Notice>)
    ensures SubCancelled(c) in ns <==> !silent
    ensures LimitReached(c) in ns <==> expire
    ensures |ns| == (if expire then 1 else 0) + (if silent then 0 else 1)
    ensures expire ==> ns[0] == LimitReached(c)
  {
    (if expire then [LimitReached(c)] else []) + (if silent then [] else [SubCancelled(c)])
  }

  /**
   * record_cancel_subscription (app/gateways/MeprStripeGateway.php:761-784):
   * a subscription already cancelled or suspended is returned untouched.
   * `silent` and `expire` are the request flags of the same names.
   */
  function CancelRecorded(l: Ledger, customer: Option<string>, silent: bool, expire: bool): (r: Recorded)
    ensures customer.None? || customer.value !in l.subs ==> r == Recorded(l, NotRecorded)
    ensures customer.Some? && customer.value in l.subs && l.subs[customer.value].status in {Cancelled, Suspended} ==>
              r == Recorded(l, RecordedAs(customer.value))
    ensures customer.Some? && customer.value in l.subs && l.subs[customer.value].status !in {Cancelled, Suspended} ==>
              var c := customer.value;
              && r.outcome == NotRecorded
              && r.after.txns == l.txns
              && r.after.subs == l.subs[c := l.subs[c].(status := Cancelled)]
              && r.after.notices == l.notices + CancelNotices(c, silent, expire)
  {
    if customer.None? || customer.value !in l.subs then Recorded(l, NotRecorded)
    else
      var c := customer.value;
      if l.subs[c].status == Cancelled || l.subs[c].status == Suspended then Recorded(l, RecordedAs(c))
      else Recorded(Ledger(l.txns, l.subs[c := l.subs[c].(status := Cancelled)], l.notices + CancelNotices(c, silent, expire)),
                    NotRecorded)
  }

  /**
   * A checkout cancellation and the subscription.deleted webhook it causes:
   * the second changes nothing and sends nothing, whatever its flags.
   */
  lemma CancelIdempotent(l: Ledger, customer: Option<string>, silent: bool, expire: bool, silent2: bool, expire2: bool)
    ensures var once := CancelRecorded(l, customer, silent, expire).after;
            CancelRecorded(once, customer, silent2, expire2).after == once
  {
  }

  /** A suspension delivered twice is recorded once. */
  lemma SuspendIdempotent(l: Ledger, customer: Option<string>)
    ensures var once := SuspendRecorded(l, customer).after;
            SuspendRecorded(once, customer).after == once
  {
  }

  /**
   * Suspending deletes the processor subscription just as cancelling does,
   * and the processor answers with the same subscription.deleted webhook;
   * that webhook leaves a suspended record suspended, so the two local
   * states stay apart and the suspended one can be resumed.
   */
  lemma SuspendSurvivesDeletionWebhook(l: Ledger, c: string, silent: bool, expire: bool)
    requires c in l.subs
    ensures var s := SuspendRecorded(l, Some(c)).after;
            && s.subs[c].status == Suspended
            && CancelRecorded(s, Some(c), silent, expire).after == s
  {
  }

  /**
   * The source lets a suspension overwrite a cancellation: it checks only
   * for an earlier suspension, so a cancelled record becomes suspended.
   */
  lemma SuspendOverridesCancelled(l: Ledger, c: string)
    requires c in l.subs && l.subs[c].status == Cancelled
    ensures SuspendRecorded(l, Some(c)).after.subs[c].status == Suspended
  {
  }

  // ---------------------------------------------------------------------
  // record_create_subscription
  // ---------------------------------------------------------------------

  /** The notices of a new subscription: its lifecycle hook, its change notice, welcome and signup. */
  function CreateNotices(c: string, txnKey: string, change: Change): (ns: seq<Notice>)
    ensures |ns| == 4 && ns[0] == Lifecycle(change, c) && ns[1] == SubChangeNotice(change, c)
    ensures ns[2..] == [Welcome(txnKey), Signup(txnKey)]
  {
    [Lifecycle(change, c), SubChangeNotice(change, c), Welcome(txnKey), Signup(txnKey)]
  }

  /** A subscription with no trial or a free trial gets a confirmation transaction. */
  predicate NeedsConfirmation(sub: Sub): (b: bool)
    ensures !sub.trial ==> b
    ensures sub.trial ==> (b <==> sub.trialAmount == 0)
  {
    !sub.trial || sub.trialAmount == 0
  }

  /** The first transaction turned into a zero-amount confirmation lasting through the trial or grace period. */
  function Confirmation(txn: Txn, days: int, now: int): (t: Txn)
    ensures t.status == Confirmed && t.kind == SubscriptionConfirmation && t.total == 0
    ensures t.expiresAt == now + Days(days)
    ensures t.userId == txn.userId && t.productId == txn.productId && t.subscription == txn.subscription
    ensures t.couponId == txn.couponId
  {
    txn.(status := Confirmed, kind := SubscriptionConfirmation, total := 0, expiresAt := now + Days(days))
  }

  /**
   * record_create_subscription (app/gateways/MeprStripeGateway.php:496-559).
   * The source dereferences the subscription without checking that one
   * matched; here a missing one leaves the ledger as it was.
   */
  function CreateSubscriptionRecorded(l: Ledger, customer: CustomerData, firstTxn: string,
                                      prior: Option<string>, direction: Direction,
                                      graceDays: nat, now: int): (r: Recorded)
    ensures customer.id !in l.subs ==> r == Recorded(l, NotRecorded)
    ensures customer.id in l.subs ==>
              var c := customer.id;
              var sub := l.subs[c];
              var change := ChangeOf(l.subs[c := sub.(status := Active)], prior, direction);
              && r.outcome == RecordedAs(c)
              && r.after.subs.Keys == l.subs.Keys
              && r.after.subs[c] == sub.(status := Active, card := Cached(sub.card, DefaultCard(customer)))
              && r.after.subs == CancelPrior(l.subs[c := sub.(status := Active, card := Cached(sub.card, DefaultCard(customer)))],
                                             prior, Some(c))
              && (prior.Some? && prior.value in l.subs && prior.value != c ==>
                    r.after.subs[prior.value].status == Cancelled)
              && (forall k :: k in l.subs && k != c && Some(k) != prior ==> r.after.subs[k] == l.subs[k])
              && (NeedsConfirmation(sub) && firstTxn in l.txns ==>
                    && r.after.txns == (l.txns - {firstTxn})[c := Confirmation(l.txns[firstTxn],
                                          if sub.trial then sub.trialDays else graceDays, now)]
                    && r.after.notices == l.notices + CreateNotices(c, c, change))
              && (!NeedsConfirmation(sub) || firstTxn !in l.txns ==>
                    && r.after.txns == l.txns
                    && r.after.notices == l.notices + CreateNotices(c, firstTxn, change))
  {
    if customer.id !in l.subs then Recorded(l, NotRecorded)
    else
      var c := customer.id;
      var sub := l.subs[c].(status := Active, card := Cached(l.subs[c].card, DefaultCard(customer)));
      var subs1 := l.subs[c := sub];
      var change := ChangeOf(subs1, prior, direction);
      var subs2 := CancelPrior(subs1, prior, Some(c));
      if NeedsConfirmation(sub) && firstTxn in l.txns then
        var days := if sub.trial then sub.trialDays else graceDays;
        var txns := (l.txns - {firstTxn})[c := Confirmation(l.txns[firstTxn], days, now)];
        Recorded(Ledger(txns, subs2, l.notices + CreateNotices(c, c, change)), RecordedAs(c))
      else
        Recorded(Ledger(l.txns, subs2, l.notices + CreateNotices(c, firstTxn, change)), RecordedAs(c))
  }

  // ---------------------------------------------------------------------
  // record_resume_subscription
  // ---------------------------------------------------------------------

  /** The key of the stop-gap confirmation a resumption creates: subscr_id, a dash, a unique suffix. */
  function ResumeTxnKey(c: string, uniq: string): (k: string)
    ensures |k| == |c| + 1 + |uniq| && k[..|c|] == c && k[|c|] == '-'
    ensures k[|c| + 1..] == uniq
  {
    c + "-" + uniq
  }

  /**
   * record_resume_subscription (app/gateways/MeprStripeGateway.php:699-736).
   * `priorExpiresAt` is the expiry of the subscription's latest transaction.
   * The new confirmation carries only its subscription link, as in the
   * source; its user and product are left at 0.
   */
  function ResumeRecorded(l: Ledger, customer: CustomerData, priorExpiresAt: int, now: int, uniq: string): (r: Recorded)
    ensures customer.id !in l.subs ==> r == Recorded(l, NotRecorded)
    ensures customer.id in l.subs ==>
              var c := customer.id;
              && r.outcome == RecordedAs(c)
              && r.after.subs == l.subs[c := l.subs[c].(status := Active, card := Cached(l.subs[c].card, DefaultCard(customer)))]
              && r.after.notices == l.notices + [SubResumed(c)]
              && (priorExpiresAt >= now ==> r.after.txns == l.txns)
              && (priorExpiresAt < now ==>
                    var k := ResumeTxnKey(c, uniq);
                    && r.after.txns.Keys == l.txns.Keys + {k}
                    && r.after.txns - {k} == l.txns - {k}
                    && r.after.txns[k].status == Confirmed
                    && r.after.txns[k].kind == SubscriptionConfirmation
                    && r.after.txns[k].total == 0
                    && r.after.txns[k].userId == 0 && r.after.txns[k].productId == 0
                    && r.after.txns[k].subscription == Some(c)
                    && r.after.txns[k].expiresAt == now)
  {
    if customer.id !in l.subs then Recorded(l, NotRecorded)
    else
      var c := customer.id;
      var subs := l.subs[c := l.subs[c].(status := Active, card := Cached(l.subs[c].card, DefaultCard(customer)))];
      var txns := if priorExpiresAt < now
                  then l.txns[ResumeTxnKey(c, uniq) := Txn(0, 0, 0, Some(c), Confirmed, SubscriptionConfirmation, 0, now + Days(0))]
                  else l.txns;
      Recorded(Ledger(txns, subs, l.notices + [SubResumed(c)]), RecordedAs(c))
  }

  // ---------------------------------------------------------------------
  // process_resume_subscription: the synthetic trial the new plan carries
  // ---------------------------------------------------------------------

  /**
   * MeprUtils::tsdays, taken as whole days rounded toward zero.
   */
  function TsDays(seconds: int): (d: int)
    ensures seconds >= 0 ==> 0 <= d && Days(d) <= seconds < Days(d + 1)
    ensures seconds < 0 ==> d <= 0 && Days(d - 1) < seconds <= Days(d)
  {
    if seconds >= 0 then seconds / 86400 else -((-seconds) / 86400)
  }

  /**
   * The trial fields process_resume_subscription sets before creating the
   * plan (app/gateways/MeprStripeGateway.php:653-674): when the subscription
   * has expired (and is not lifetime) after a real payment, no trial, so
   * billing restarts at once; when it expired on a confirmation, the fields
   * are left as they were; otherwise a free trial lasting the days that
   * remain before the old expiry.
   */
  function SyntheticTrial(sub: Sub, expired: bool, lifetime: bool, expiringStatus: TxnStatus, now: int): (s: Sub)
    ensures s == sub.(trial := s.trial, trialDays := s.trialDays, trialAmount := s.trialAmount)
    ensures expired && !lifetime && expiringStatus != Confirmed ==> !s.trial && s.trialDays == 0 && s.trialAmount == 0
    ensures expired && !lifetime && expiringStatus == Confirmed ==> s == sub
    ensures !expired || lifetime ==> s.trial && s.trialAmount == 0 && s.trialDays == TsDays(sub.expiresAt - now)
  {
    if expired && !lifetime then
      if expiringStatus != Confirmed then sub.(trial := false, trialDays := 0, trialAmount := 0)
      else sub
    else sub.(trial := true, trialDays := TsDays(sub.expiresAt - now), trialAmount := 0)
  }

  /** Restoring the saved trial fields gives back the subscription as it was before. */
  lemma TrialRestored(sub: Sub, expired: bool, lifetime: bool, expiringStatus: TxnStatus, now: int)
    ensures SyntheticTrial(sub, expired, lifetime, expiringStatus, now)
              .(trial := sub.trial, trialDays := sub.trialDays, trialAmount := sub.trialAmount) == sub
  {
  }
}
