/**
 * The Stripe gateway as a state machine over the ledger
 * (app/gateways/MeprStripeGateway.php). The transaction and subscription
 * tables, the notice log and the plan-id post meta are fields the methods
 * update step by step, as the source does with store(); every method is
 * proved to leave the state its specification function in Reconcile, Plans
 * or Webhook describes.
 */
module Gateway {
  import opened Records
  import opened StripeClient
  import opened Cards
  import opened Plans
  import opened Payments
  import opened Reconcile
  import opened Webhook

  const UnsuccessfulMessage := "Payment was unsuccessful, please check your payment details and try again."
  const CardDetailsMessage := "There was a problem sending your credit card details to the processor. Please try again later."

  /** The transaction `key` stored under the id of the charge made for it. */
  function ChargeStored(l: Ledger, key: string, chargeId: string): (l': Ledger)
    requires key in l.txns
    ensures chargeId in l'.txns && l'.txns[chargeId] == l.txns[key]
    ensures l'.txns.Keys == l.txns.Keys - {key} + {chargeId}
    ensures forall k :: k in l.txns && k != key && k != chargeId ==> l'.txns[k] == l.txns[k]
    ensures l'.subs == l.subs && l'.notices == l.notices
  {
    l.(txns := (l.txns - {key})[chargeId := l.txns[key]])
  }

  /** The customer process_resume_subscription falls back to: just the subscription's processor id. */
  function BareCustomer(id: string): (c: CustomerData)
    ensures c.id == id && DefaultCard(c) == None
  {
    CustomerData(id, None, [], None, [], None)
  }

  class StripeGateway {
    var txns: map<string, Txn>
    var subs: map<string, Sub>
    var notices: seq<Notice>
    var planIds: map<string, string>  // post meta _mepr_stripe_plan_id, by subscription id

    /** The ledger the gateway reconciles. */
    function State(): (l: Ledger)
      reads this
    {
      Ledger(txns, subs, notices)
    }

    constructor (txns0: map<string, Txn>, subs0: map<string, Sub>, planIds0: map<string, string>)
      ensures State() == Ledger(txns0, subs0, []) && planIds == planIds0
    {
      txns, subs, notices, planIds := txns0, subs0, [], planIds0;
    }

    /** maybe_cancel_old_sub, on the subscription table. */
    method MaybeCancelOldSub(prior: Option<string>, own: Option<string>)
      modifies this`subs
      ensures subs == CancelPrior(old(subs), prior, own)
    {
      if prior.Some? && prior.value in subs && prior != own {
        var old_sub := subs[prior.value];
        subs := subs[prior.value := old_sub.(status := Cancelled)];
      }
    }

    /** record_payment (app/gateways/MeprStripeGateway.php:295-348). */
    method RecordPayment(charge: Charge, lifetime: bool, prior: Option<string>, direction: Direction)
      modifies this`txns, this`subs, this`notices
      ensures State() == PaymentRecorded(old(State()), charge, lifetime, prior, direction)
    {
      var id := charge.id;
      if id !in txns {
        return;
      }
      var txn := txns[id];
      if txn.status == Complete {
        return;
      }
      txn := txn.(status := Complete);
      // the classification reads the prior subscription, so it precedes its cancellation
      var change := ChangeOf(subs, prior, direction);
      MaybeCancelOldSub(prior, txn.subscription);
      txns := txns[id := txn];
      var sent: seq<Notice> := [];
      if lifetime {
        sent := [Lifecycle(change, id)];
        if change == Upgrade {
          sent := sent + [TxnChangeNotice(Upgrade, id)];
        } else if change == Downgrade {
          sent := sent + [TxnChangeNotice(Downgrade, id)];
        }
        sent := sent + [Welcome(id), Signup(id)];
      }
      sent := sent + [Receipt(id), CardExpiring(id)];
      assert sent == PaymentNotices(id, change, lifetime);
      notices := notices + sent;
    }

    /** record_subscription_payment (app/gateways/MeprStripeGateway.php:162-236). */
    method RecordSubscriptionPayment(charge: Charge, firstTxn: string, zeroDecimal: bool,
                                     customerFetch: Response<CustomerData>) returns (outcome: Outcome)
      modifies this`txns, this`subs, this`notices
      ensures Recorded(State(), outcome) == SubscriptionPaymentRecorded(old(State()), charge, firstTxn, zeroDecimal, customerFetch)
    {
      if charge.customer.None? || charge.customer.value !in subs || charge.id in txns {
        return NotRecorded;
      }
      var c := charge.customer.value;
      var sub := subs[c];
      var txn := Txn(sub.userId, sub.productId, CouponOf(txns, firstTxn), Some(c), Complete, Payment,
                     Currency.Decode(zeroDecimal, charge.amount), 0);
      var fetched := Classify(true, customerFetch);
      if fetched.Raised? {
        return Threw(fetched.error);
      }
      txns := txns[charge.id := txn];
      sub := sub.(status := Active);
      var card := GetCard(charge);
      if card.Some? {
        sub := sub.(card := CardInfo(card.value.last4, card.value.expMonth, card.value.expYear));
      }
      subs := subs[c := sub];
      notices := notices + [LimitCycles(c)];
      notices := notices + [Receipt(charge.id), CardExpiring(charge.id)];
      outcome := RecordedAs(charge.id);
    }

    /** record_payment_failure (app/gateways/MeprStripeGateway.php:239-288). */
    method RecordPaymentFailure(charge: Charge, firstTxn: string, zeroDecimal: bool) returns (outcome: Outcome)
      modifies this`txns, this`subs, this`notices
      ensures Recorded(State(), outcome) == PaymentFailureRecorded(old(State()), charge, firstTxn, zeroDecimal)
    {
      if charge.id in txns {
        var txn := txns[charge.id];
        txns := txns[charge.id := txn.(status := Failed)];
      } else if charge.customer.Some? && charge.customer.value in subs {
        var c := charge.customer.value;
        var sub := subs[c];
        var txn := Txn(sub.userId, sub.productId, CouponOf(txns, firstTxn), Some(c), Failed, Payment,
                       Currency.Decode(zeroDecimal, charge.amount), 0);
        txns := txns[charge.id := txn];
        subs := subs[c := sub.(status := Active)];
        notices := notices + [ExpireTxns(c)];
      } else {
        return NotRecorded;
      }
      notices := notices + [PaymentFailed(charge.id)];
      outcome := RecordedAs(charge.id);
    }

    /** record_refund (app/gateways/MeprStripeGateway.php:364-386). */
    method RecordRefund(chargeId: string) returns (outcome: Outcome)
      modifies this`txns, this`notices
      ensures Recorded(State(), outcome) == RefundRecorded(old(State()), chargeId)
    {
      if chargeId !in txns {
        return NotRecorded;
      }
      var txn := txns[chargeId];
      if txn.status == Refunded {
        return RecordedAs(chargeId);
      }
      txns := txns[chargeId := txn.(status := Refunded)];
      notices := notices + [RefundIssued(chargeId)];
      outcome := RecordedAs(chargeId);
    }

    /** record_suspend_subscription (app/gateways/MeprStripeGateway.php:624-640). */
    method RecordSuspendSubscription(customer: Option<string>) returns (outcome: Outcome)
      modifies this`subs, this`notices
      ensures Recorded(State(), outcome) == SuspendRecorded(old(State()), customer)
    {
      if customer.None? || customer.value !in subs {
        return NotRecorded;
      }
      var c := customer.value;
      var sub := subs[c];
      if sub.status == Suspended {
        return RecordedAs(c);
      }
      subs := subs[c := sub.(status := Suspended)];
      notices := notices + [SubSuspended(c)];
      outcome := NotRecorded;
    }

    /** record_cancel_subscription (app/gateways/MeprStripeGateway.php:761-784). */
    method RecordCancelSubscription(customer: Option<string>, silent: bool, expire: bool) returns (outcome: Outcome)
      modifies this`subs, this`notices
      ensures Recorded(State(), outcome) == CancelRecorded(old(State()), customer, silent, expire)
    {
      if customer.None? || customer.value !in subs {
        return NotRecorded;
      }
      var c := customer.value;
      var sub := subs[c];
      if sub.status == Cancelled || sub.status == Suspended {
        return RecordedAs(c);
      }
      subs := subs[c := sub.(status := Cancelled)];
      if expire {
        notices := notices + [LimitReached(c)];
      }
      if !silent {
        notices := notices + [SubCancelled(c)];
      }
      outcome := NotRecorded;
    }

    /** record_create_subscription (app/gateways/MeprStripeGateway.php:496-559). */
    method RecordCreateSubscription(customer: CustomerData, firstTxn: string, prior: Option<string>,
                                    direction: Direction, graceDays: nat, now: int) returns (outcome: Outcome)
      modifies this`txns, this`subs, this`notices
      ensures Recorded(State(), outcome) ==
                CreateSubscriptionRecorded(old(State()), customer, firstTxn, prior, direction, graceDays, now)
    {
      var c := customer.id;
      if c !in subs {
        return NotRecorded;
      }
      var sub := subs[c].(status := Active);
      var card := GetDefaultCard(customer);
      sub := sub.(card := Cached(sub.card, card));
      subs := subs[c := sub];
      // the classification reads the prior subscription, so it precedes its cancellation
      var change := ChangeOf(subs, prior, direction);
      MaybeCancelOldSub(prior, Some(c));
      var txnKey := firstTxn;
      if NeedsConfirmation(sub) && firstTxn in txns {
        var days := if sub.trial then sub.trialDays else graceDays;
        var txn := Confirmation(txns[firstTxn], days, now);
        txns := (txns - {firstTxn})[c := txn];
        txnKey := c;
      }
      notices := notices + CreateNotices(c, txnKey, change);
      outcome := RecordedAs(c);
    }

    /** record_resume_subscription (app/gateways/MeprStripeGateway.php:699-736). */
    method RecordResumeSubscription(customer: CustomerData, priorExpiresAt: int, now: int, uniq: string)
      returns (outcome: Outcome)
      modifies this`txns, this`subs, this`notices
      ensures Recorded(State(), outcome) == ResumeRecorded(old(State()), customer, priorExpiresAt, now, uniq)
    {
      var c := customer.id;
      if c !in subs {
        return NotRecorded;
      }
      var sub := subs[c].(status := Active);
      var card := GetDefaultCard(customer);
      sub := sub.(card := Cached(sub.card, card));
      subs := subs[c := sub];
      if priorExpiresAt < now {
        var txn := Txn(0, 0, 0, Some(c), Confirmed, SubscriptionConfirmation, 0, now + Days(0));
        txns := txns[ResumeTxnKey(c, uniq) := txn];
      }
      notices := notices + [SubResumed(c)];
      outcome := RecordedAs(c);
    }

    /** create_new_plan_id: mints a plan id and caches it in the post meta. */
    method CreateNewPlanId(postId: string, host: string, uniq: string) returns (id: string)
      modifies this`planIds
      ensures id == NewPlanId(postId, host, uniq)
      ensures planIds == old(planIds)[postId := id]
    {
      id := postId + "-" + host + "-" + uniq;
      planIds := planIds[postId := id];
    }

    /** stripe_plan (app/gateways/MeprStripeGateway.php:1127-1174). */
    method StripePlan(sub: Sub, isNew: bool, host: string, firstUniq: string, secondUniq: string,
                      zeroDecimal: bool, fetch: Response<Plan>, create: Response<Plan>)
      returns (asked: string, created: Option<PlanArgs>, result: Reply<Plan>)
      modifies this`planIds
      ensures Resolution(asked, planIds, created, result) ==
                ResolvePlan(old(planIds), sub, isNew, host, firstUniq, secondUniq, zeroDecimal, fetch, create)
    {
      if isNew {
        asked := CreateNewPlanId(sub.postId, host, firstUniq);
      } else {
        asked := GetPlanId(planIds, sub.postId);
      }
      result := Classify(true, fetch);
      if result.Ok? {
        return asked, None, result;
      }
      // any fault on the fetch, not only a missing plan, leads here
      var id := CreateNewPlanId(sub.postId, host, secondUniq);
      created := Some(PlanRequest(sub, id, zeroDecimal));
      result := Classify(true, create);
    }

    /**
     * process_payment (app/gateways/MeprStripeGateway.php:93-155). `key` is
     * the transaction's current key, the form fields arrive as options,
     * `requestDump` is the printed request the source appends to the
     * missing-card message, and `chargeResp` is the processor's answer to the
     * charge request `sent`.
     */
    method ProcessPayment(key: string, token: Option<string>, customer: Option<string>, raw: Option<RawCard>,
                          requestDump: string, zeroDecimal: bool, chargeResp: Response<Charge>,
                          lifetime: bool, prior: Option<string>, direction: Direction)
      returns (sent: Option<ChargeArgs>, outcome: Outcome)
      modifies this`txns, this`subs, this`notices
      ensures key !in old(txns) ==>
                sent.None? && outcome == Threw(GatewayException(UnsuccessfulMessage)) && State() == old(State())
      ensures key in old(txns) && SelectSource(token, customer, raw).None? ==>
                sent.None? && outcome == Threw(GatewayException(CardDetailsMessage + " 1 " + requestDump))
                && State() == old(State())
      ensures key in old(txns) && SelectSource(token, customer, raw).Some? ==>
                sent == Some(ChargeRequest(zeroDecimal, old(txns)[key].total, SelectSource(token, customer, raw).value))
      ensures sent.Some? && Classify(true, chargeResp).Raised? ==>
                outcome == Threw(Classify(true, chargeResp).error) && State() == old(State())
      ensures sent.Some? && Classify(true, chargeResp).Ok? ==>
                var charge := Classify(true, chargeResp).value;
                && outcome == NotRecorded
                && State() == PaymentRecorded(ChargeStored(old(State()), key, charge.id), charge, lifetime, prior, direction)
    {
      if key !in txns {
        return None, Threw(GatewayException(UnsuccessfulMessage));
      }
      var source := SelectSource(token, customer, raw);
      if source.None? {
        return None, Threw(GatewayException(CardDetailsMessage + " 1 " + requestDump));
      }
      sent := Some(ChargeRequest(zeroDecimal, txns[key].total, source.value));
      var reply := Classify(true, chargeResp);
      if reply.Raised? {
        return sent, Threw(reply.error);
      }
      var charge := reply.value;
      var txn := txns[key];
      txns := (txns - {key})[charge.id := txn];
      RecordPayment(charge, lifetime, prior, direction);
      outcome := NotRecorded;
    }

    /**
     * process_refund (app/gateways/MeprStripeGateway.php:353-359).
     * `refundResp` is the processor's answer to the refund request for the
     * transaction's charge; the request path itself is not modelled.
     */
    method ProcessRefund(refundResp: Response<Charge>) returns (outcome: Outcome)
      modifies this`txns, this`notices
      ensures Classify(true, refundResp).Raised? ==>
                outcome == Threw(Classify(true, refundResp).error) && State() == old(State())
      ensures Classify(true, refundResp).Ok? ==>
                Recorded(State(), outcome) == RefundRecorded(old(State()), Classify(true, refundResp).value.id)
    {
      var reply := Classify(true, refundResp);
      if reply.Raised? {
        return Threw(reply.error);
      }
      outcome := RecordRefund(reply.value.id);
    }

    /**
     * process_suspend_subscription (app/gateways/MeprStripeGateway.php:605-619).
     * `customer` is what stripe_customer found; the deletion's answer carries
     * the customer the record step looks up.
     */
    method ProcessSuspendSubscription(customer: Option<string>, deleteResp: Response<Charge>) returns (outcome: Outcome)
      modifies this`subs, this`notices
      ensures customer.None? ==> outcome == NotRecorded && State() == old(State())
      ensures customer.Some? && Classify(true, deleteResp).Raised? ==>
                outcome == Threw(Classify(true, deleteResp).error) && State() == old(State())
      ensures customer.Some? && Classify(true, deleteResp).Ok? ==>
                Recorded(State(), outcome) == SuspendRecorded(old(State()), Classify(true, deleteResp).value.customer)
    {
      if customer.None? {
        return NotRecorded;
      }
      var reply := Classify(true, deleteResp);
      if reply.Raised? {
        return Threw(reply.error);
      }
      outcome := RecordSuspendSubscription(reply.value.customer);
    }

    /** process_cancel_subscription (app/gateways/MeprStripeGateway.php:742-755). */
    method ProcessCancelSubscription(customer: Option<string>, deleteResp: Response<Charge>, silent: bool, expire: bool)
      returns (outcome: Outcome)
      modifies this`subs, this`notices
      ensures customer.None? ==> outcome == NotRecorded && State() == old(State())
      ensures customer.Some? && Classify(true, deleteResp).Raised? ==>
                outcome == Threw(Classify(true, deleteResp).error) && State() == old(State())
      ensures customer.Some? && Classify(true, deleteResp).Ok? ==>
                Recorded(State(), outcome) ==
                  CancelRecorded(old(State()), Classify(true, deleteResp).value.customer, silent, expire)
    {
      if customer.None? {
        return NotRecorded;
      }
      var reply := Classify(true, deleteResp);
      if reply.Raised? {
        return Threw(reply.error);
      }
      outcome := RecordCancelSubscription(reply.value.customer, silent, expire);
    }

    /**
     * The first step of process_resume_subscription
     * (app/gateways/MeprStripeGateway.php:653-674): the subscription's trial
     * fields are overwritten with the synthetic trial and stored.
     */
    method StoreSyntheticTrial(key: string, expired: bool, lifetime: bool, expiringStatus: TxnStatus, now: int)
      returns (sub: Sub)
      requires key in subs
      modifies this`subs
      ensures sub == SyntheticTrial(old(subs)[key], expired, lifetime, expiringStatus, now)
      ensures subs == old(subs)[key := sub]
    {
      sub := subs[key];
      if expired && !lifetime {
        if expiringStatus != Confirmed {
          // expired after a real payment: bill again at once
          sub := sub.(trial := false, trialDays := 0, trialAmount := 0);
        }
      } else {
        sub := sub.(trial := true, trialDays := TsDays(sub.expiresAt - now), trialAmount := 0);
      }
      subs := subs[key := sub];
    }

    /**
     * process_resume_subscription (app/gateways/MeprStripeGateway.php:644-694).
     * The subscription's trial fields are set to the synthetic trial, a new
     * plan is created with them, the saved fields are put back, the
     * subscription is re-created on the plan and the resumption recorded.
     * When the plan step throws, the synthetic fields stay stored, as in the
     * source. `customer` is what stripe_customer found.
     */
    method ProcessResumeSubscription(key: string, customer: Option<CustomerData>,
                                     expired: bool, lifetime: bool, expiringStatus: TxnStatus, now: int,
                                     host: string, firstUniq: string, secondUniq: string, zeroDecimal: bool,
                                     planFetch: Response<Plan>, planCreate: Response<Plan>,
                                     subscribeResp: Response<Charge>, priorExpiresAt: int, uniq: string)
      returns (created: Option<PlanArgs>, outcome: Outcome)
      modifies this
      ensures key !in old(subs) ==>
                created.None? && outcome == NotRecorded && State() == old(State()) && planIds == old(planIds)
      ensures key in old(subs) ==>
                var synthetic := SyntheticTrial(old(subs)[key], expired, lifetime, expiringStatus, now);
                var res := ResolvePlan(old(planIds), synthetic, true, host, firstUniq, secondUniq, zeroDecimal,
                                       planFetch, planCreate);
                var cust := if customer.Some? then customer.value else BareCustomer(key);
                && planIds == res.meta && created == res.created
                && (res.result.Raised? ==>
                      && outcome == Threw(res.result.error)
                      && State() == old(State()).(subs := old(subs)[key := synthetic]))
                && (!res.result.Raised? && Classify(true, subscribeResp).Raised? ==>
                      outcome == Threw(Classify(true, subscribeResp).error) && State() == old(State()))
                && (!res.result.Raised? && !Classify(true, subscribeResp).Raised? ==>
                      Recorded(State(), outcome) == ResumeRecorded(old(State()), cust, priorExpiresAt, now, uniq))
    {
      if key !in subs {
        return None, NotRecorded;
      }
      var cust := if customer.Some? then customer.value else BareCustomer(key);
      var origTrial, origTrialDays, origTrialAmount := subs[key].trial, subs[key].trialDays, subs[key].trialAmount;
      var sub := StoreSyntheticTrial(key, expired, lifetime, expiringStatus, now);
      var asked, plan;
      asked, created, plan := StripePlan(sub, true, host, firstUniq, secondUniq, zeroDecimal, planFetch, planCreate);
      if plan.Raised? {
        return created, Threw(plan.error);
      }
      sub := sub.(trial := origTrial, trialDays := origTrialDays, trialAmount := origTrialAmount);
      subs := subs[key := sub];
      assert subs == old(subs);
      var subscribed := Classify(true, subscribeResp);
      if subscribed.Raised? {
        return created, Threw(subscribed.error);
      }
      outcome := RecordResumeSubscription(cust, priorExpiresAt, now, uniq);
    }

    /** listener (app/gateways/MeprStripeGateway.php:1073-1122). */
    method Listener(bodyId: Option<string>, fetched: Response<Event>, firstTxn: string, zeroDecimal: bool,
                    customerFetch: Response<CustomerData>) returns (outcome: Outcome)
      modifies this`txns, this`subs, this`notices
      ensures Recorded(State(), outcome) ==
                Delivered(old(State()), bodyId, fetched, firstTxn, zeroDecimal, customerFetch)
    {
      if bodyId.None? {
        return NotRecorded;
      }
      var reply := Classify(true, fetched);
      if !reply.Ok? {
        return NotRecorded;
      }
      var event := reply.value;
      var obj := event.obj;
      if event.eventType == ChargeSucceeded {
        if obj.description.None? && obj.customer.Some? {
          outcome := RecordSubscriptionPayment(obj, firstTxn, zeroDecimal, customerFetch);
        } else {
          outcome := NotRecorded;
        }
      } else if event.eventType == ChargeFailed {
        outcome := RecordPaymentFailure(obj, firstTxn, zeroDecimal);
      } else if event.eventType == ChargeRefunded {
        outcome := RecordRefund(obj.id);
      } else if event.eventType == SubscriptionDeleted {
        outcome := RecordCancelSubscription(obj.customer, false, false);
      } else {
        outcome := NotRecorded;
      }
    }
  }
}
