# Stripe gateway reconciliation, modelled in Dafny

This project models the reconciliation core of MemberPress's Stripe gateway
(`MeprStripeGateway`). The gateway keeps a local ledger of transactions
(keyed by `trans_num`, the processor's charge id) and subscriptions (keyed by
`subscr_id`, the processor's customer id) in line with what Stripe reports.
It does this through two entry points that run the same recording routines:

- the synchronous `process_*` methods of the checkout and account pages;
- the webhook `listener`, which trusts only the event id of the posted body,
  fetches the event again and dispatches on its type.

The model is a sequential state machine. The class `Gateway.StripeGateway`
holds the transaction and subscription tables as maps and the notices it
sends as an append-only log. It also holds the plan-id post meta as a map.
Its methods update these step by step, as the source does with `store()`.
Each method is proved to leave exactly the state that a pure function in
`Reconcile`, `Plans` or `Webhook` describes. The properties are stated about
those functions, in their contracts and in lemmas:

- a second delivery of the same charge, refund, cancellation or suspension
  changes nothing;
- checkout and webhook may arrive in either order;
- the upgrade/downgrade classification must precede cancelling the old
  subscription;
- a plan id, once created and cached, is what a later `stripe_plan` call
  with `is_new` false asks for, so that call creates no second plan.

The processor's answers come in as explicit parameters, in place of the
source's `$_REQUEST['data']` channel. So do the results of collaborators
whose code is not part of this model, and the clock and `uniqid()`.

Files (one module each): `types.dfy` (Records), `currency.dfy` (Currency),
`client.dfy` (StripeClient), `cards.dfy` (Cards), `plans.dfy` (Plans),
`payments.dfy` (Payments), `reconcile.dfy` (Reconcile), `webhook.dfy`
(Webhook), `gateway.dfy` (Gateway).

Amounts are integers in hundredths of the shop currency's major unit, so
15.00 is 1500. The processor is sent the currency's smallest unit: the same
number for standard currencies, and whole units for zero-decimal currencies
such as JPY.

## Model

| member | source | states |
|---|---|---|
| Records.Days | app/gateways/MeprStripeGateway.php:532 | a number of days in seconds is a whole multiple of a day that divides back to the same number |
| Currency.Encode | app/gateways/MeprStripeGateway.php:104-105 | the amount sent is the total itself for standard currencies, and for zero-decimal currencies the whole-unit amount rounded half up |
| Currency.Decode | app/gateways/MeprStripeGateway.php:190-195 | the gross recorded from a charge is its amount for standard currencies, and 100 times it (a whole number of units) for zero-decimal ones |
| Currency.EncodeDecode | app/gateways/MeprStripeGateway.php:265-270 | recording a charge's amount and encoding the gross again gives back the charged amount, in both kinds of currency |
| Currency.DecodeEncode | app/gateways/MeprStripeGateway.php:1153 | encoding then decoding returns the local total exactly when the currency can represent it (always for standard currencies; whole amounts only for zero-decimal ones) |
| Currency.EncodeExamples | app/gateways/MeprStripeGateway.php:105 | 1500 yen encodes as 1500 and 15.00 in a standard currency as 1500 |
| StripeClient.EnvelopeMessage | app/gateways/MeprStripeGateway.php:1259-1260 | the exception for an error envelope carries the processor's message followed by its type in parentheses |
| StripeClient.Classify | app/gateways/MeprStripeGateway.php:1248-1266 | a non-blocking call only acknowledges; a blocking one returns the decoded resource exactly when one was decoded; it throws an HTTP exception, with the "HTTP error connecting to Stripe" message, exactly on transport failure, and a remote exception for an error envelope or an undecodable body |
| Cards.FirstWithId | app/gateways/MeprStripeGateway.php:1276-1278 | the result is the first list entry whose id equals the default id, and nothing exactly when no entry has that id |
| Cards.FindById | app/gateways/MeprStripeGateway.php:1281-1283 | the early-return loop over a card list returns exactly the first entry with the wanted id |
| Cards.DefaultCard | app/gateways/MeprStripeGateway.php:1272-1290 | a card found through `default_source` is a listed source with that id, one found through `default_card` a listed card with that id; with neither field `active_card` is the answer |
| Cards.GetDefaultCard | app/gateways/MeprStripeGateway.php:1272-1290 | `default_source` is looked up in `sources`, otherwise `default_card` in `cards`, otherwise `active_card` is returned; a card is found exactly when the list holds the named id |
| Cards.DefaultSourceShadowsLegacy | app/gateways/MeprStripeGateway.php:1275-1284 | a `default_source` naming no listed source yields no card; the legacy fields are not consulted |
| Cards.GetCard | app/gateways/MeprStripeGateway.php:1293-1301 | a `source` whose object is "card" wins over the legacy `card` field; no card exactly when neither is usable |
| Cards.Cached | app/gateways/MeprStripeGateway.php:211-215 | a found card replaces the subscription's cached last4 and expiry; without one the cache is kept |
| Plans.IntervalRoundTrip | app/gateways/MeprStripeGateway.php:1142-1147 | months, years and weeks map one-to-one to month, year and week; every other period type gets no interval |
| Plans.GetPlanId | app/gateways/MeprStripeGateway.php:1176-1183 | the cached plan id when one is stored and non-empty, otherwise the subscription id |
| Plans.NewPlanId | app/gateways/MeprStripeGateway.php:1185-1190 | a new plan id is the subscription id, a dash, the site host, a dash and the unique suffix |
| Plans.Interval | app/gateways/MeprStripeGateway.php:1142-1147 | months, years and weeks get an interval, which reads back as the same period type; every other period type gets none |
| Plans.PlanRequest | app/gateways/MeprStripeGateway.php:1149-1167 | the create-plan request carries the new id, the mapped interval, the period as interval count, the price as Currency.Encode sends it (which decodes back exactly when representable) and trial days exactly when the subscription has a trial |
| Plans.ResolvePlan | app/gateways/MeprStripeGateway.php:1127-1174 | the fetched id is the cached id, or a fresh one for a new plan; a successful fetch creates nothing and leaves the meta as it was, or with the first minted id stored for a new plan; any failed fetch mints and stores a second id and creates the plan, and the creation's error propagates |
| Plans.BootstrapThenReuse | app/gateways/MeprStripeGateway.php:1131-1171 | after a plan is created, the next resolution asks for the created id and, when found, creates no second plan and leaves the cache alone |
| Plans.AnyFetchFaultCreates | app/gateways/MeprStripeGateway.php:1139-1141 | a transport failure and an error envelope on the fetch lead to the same creation: every fault is caught, not only a missing plan |
| Payments.SelectSource | app/gateways/MeprStripeGateway.php:117-137 | the token wins, then the customer, then raw card fields; there is no source exactly when none was posted |
| Payments.ChargeRequest | app/gateways/MeprStripeGateway.php:104-115 | the charge request carries the chosen source and the total as Currency.Encode sends it, which decodes back exactly when representable |
| Reconcile.CouponOf | app/gateways/MeprStripeGateway.php:184 | the coupon of the subscription's first transaction, and 0 when there is none |
| Reconcile.ChangeOf | app/gateways/MeprStripeGateway.php:314-316 | a purchase is an upgrade or a downgrade exactly when the prior subscription is present and not cancelled and the new product ranks higher or lower |
| Reconcile.CancelPrior | app/gateways/MeprStripeGateway.php:318 | only the prior subscription changes, to cancelled, and only when it exists and is not the purchase's own |
| Reconcile.ClassifyBeforeCancel | app/gateways/MeprStripeGateway.php:314-318 | classifying after the cancellation would turn every upgrade or downgrade into a new signup |
| Reconcile.PaymentNotices | app/gateways/MeprStripeGateway.php:323-343 | receipt and card-expiry notices always end the list; lifecycle, welcome and signup notices appear exactly for lifetime products, and change notices only for an upgrade or downgrade of one; nothing else is sent (5 or 6 notices for a lifetime product, 2 otherwise) |
| Reconcile.PaymentRecorded | app/gateways/MeprStripeGateway.php:295-348 | an unmatched or already complete charge changes nothing; otherwise only the matched transaction's status becomes complete, the prior subscription is cancelled and the notices use the classification taken before the cancellation |
| Reconcile.PaymentIdempotent | app/gateways/MeprStripeGateway.php:307-309 | completing the same charge twice equals completing it once |
| Reconcile.SubscriptionPaymentRecorded | app/gateways/MeprStripeGateway.php:162-236 | no customer, no matching subscription or an existing transaction means false with the ledger unchanged; with a customer, its subscription and a new charge id, the routine throws exactly when the customer fetch fails (ledger unchanged) and otherwise records the charge: exactly one complete transaction keyed by the charge id is added, with the subscription's user and product, the first transaction's coupon, the link to the subscription and the decoded gross; the subscription becomes active with the charge's card cached, its other fields kept |
| Reconcile.SubscriptionPaymentIdempotent | app/gateways/MeprStripeGateway.php:166-171 | a recurring charge delivered twice is recorded once |
| Reconcile.PaymentFailureRecorded | app/gateways/MeprStripeGateway.php:239-288 | a matched transaction becomes failed and nothing else in the tables changes; otherwise a subscription matched by customer gets one new failed payment transaction, with the subscription's user and product, the first transaction's coupon and the decoded gross, and becomes active; otherwise false, no change and no failure notice |
| Reconcile.PaymentFailureRedelivered | app/gateways/MeprStripeGateway.php:243-248 | a failure delivered twice leaves the tables as one delivery does, but the failure notice is sent again |
| Reconcile.RefundRecorded | app/gateways/MeprStripeGateway.php:364-386 | an unmatched charge returns false; an already refunded transaction returns its id with no change and no notice; otherwise it becomes refunded with one refund notice |
| Reconcile.RefundIdempotent | app/gateways/MeprStripeGateway.php:373-374 | recording the same refund twice equals recording it once, outcome included |
| Reconcile.SuspendRecorded | app/gateways/MeprStripeGateway.php:624-640 | an already suspended subscription is returned unchanged; any other matched one becomes suspended with a suspended notice and the routine returns false; no match returns false with no change |
| Reconcile.CancelNotices | app/gateways/MeprStripeGateway.php:775-779 | the cancelled notice is sent exactly when not silent, and limit-reached actions run exactly when asked to expire, before the notice; nothing else is sent |
| Reconcile.CancelRecorded | app/gateways/MeprStripeGateway.php:761-784 | a cancelled or suspended subscription is returned unchanged; any other matched one becomes cancelled with only those notices and the routine returns false; no match returns false with no change |
| Reconcile.CancelIdempotent | app/gateways/MeprStripeGateway.php:766-770 | a second cancellation, whatever its flags, changes nothing and sends nothing |
| Reconcile.SuspendIdempotent | app/gateways/MeprStripeGateway.php:629-630 | a second suspension changes nothing |
| Reconcile.SuspendSurvivesDeletionWebhook | app/gateways/MeprStripeGateway.php:766-770 | after a suspension, the deletion webhook it provokes leaves the subscription suspended, so suspended and cancelled stay distinct |
| Reconcile.SuspendOverridesCancelled | app/gateways/MeprStripeGateway.php:628-633 | a suspension turns a cancelled subscription into a suspended one, because only an earlier suspension is checked |
| Reconcile.CreateNotices | app/gateways/MeprStripeGateway.php:539-553 | a new subscription fires its lifecycle hook and change notice, then welcome and signup for its transaction |
| Reconcile.NeedsConfirmation | app/gateways/MeprStripeGateway.php:525 | a subscription without a trial needs a confirmation transaction; one with a trial needs it exactly when the trial is free |
| Reconcile.Confirmation | app/gateways/MeprStripeGateway.php:523-534 | the confirmation is the first transaction made confirmed, of confirmation type, with zero total, expiring after the given days; its user, product, coupon and subscription link stay |
| Reconcile.CreateSubscriptionRecorded | app/gateways/MeprStripeGateway.php:496-559 | the subscription table is the subscription made active with the default card cached, then CancelPrior: only the prior subscription's status changes, to cancelled; without a paid trial the first transaction is re-keyed to the subscription id as a confirmation through the trial or grace period; notices use the classification taken before the cancellation |
| Reconcile.ResumeTxnKey | app/gateways/MeprStripeGateway.php:721 | the stop-gap confirmation's key is the subscription id, a dash and exactly the unique suffix, so distinct suffixes give distinct keys |
| Reconcile.ResumeRecorded | app/gateways/MeprStripeGateway.php:699-736 | the subscription becomes active with its default card cached and a resumed notice; a confirmed subscription-confirmation transaction with zero total, user and product 0, linked to the subscription and expiring now, is added exactly when the latest transaction has already expired |
| Reconcile.TsDays | app/gateways/MeprStripeGateway.php:671 | a span in seconds becomes whole days rounded toward zero |
| Reconcile.SyntheticTrial | app/gateways/MeprStripeGateway.php:653-674 | only the trial fields change: no trial once expired after a real payment, unchanged once expired on a confirmation, and otherwise a free trial of the days left before the old expiry |
| Reconcile.TrialRestored | app/gateways/MeprStripeGateway.php:679-682 | putting the saved trial fields back gives the subscription as it was |
| Webhook.RouteOf | app/gateways/MeprStripeGateway.php:1091-1121 | a succeeded charge goes to the subscription-payment routine exactly when it has a customer and no description; failed, refunded and subscription-deleted events each go to their routine; a charge with a description and every other type are ignored |
| Webhook.Verified | app/gateways/MeprStripeGateway.php:1078-1086 | an event is acted on exactly when the body had an id and the re-fetch returned it |
| Webhook.Delivered | app/gateways/MeprStripeGateway.php:1073-1122 | without an id, after a failed re-fetch or for an ignored route, a delivery leaves the ledger unchanged; a verified event's charge goes to the recording routine of its route (subscription payment, payment failure, refund by charge id, or a cancellation with neither silent nor expire) and its result is the delivery's |
| Webhook.CheckoutRaceEitherOrder | app/gateways/MeprStripeGateway.php:1094-1097 | checkout completion and the charge.succeeded webhook leave the same ledger in either order, with the transaction complete |
| Webhook.RedeliveryIdempotent | app/gateways/MeprStripeGateway.php:1089-1118 | every webhook except a failed charge, delivered twice, leaves the ledger as one delivery does (unless the first threw) |
| Gateway.ChargeStored | app/gateways/MeprStripeGateway.php:146-148 | the transaction is moved under the charge id; every other transaction and the other tables are untouched |
| Gateway.BareCustomer | app/gateways/MeprStripeGateway.php:651 | the fallback customer has the subscription's id and no card |
| Gateway.StripeGateway.MaybeCancelOldSub | app/gateways/MeprStripeGateway.php:318 | the subscription table becomes CancelPrior of the old one |
| Gateway.StripeGateway.RecordPayment | app/gateways/MeprStripeGateway.php:295-348 | the ledger becomes PaymentRecorded of the old ledger; the plan meta is untouched |
| Gateway.StripeGateway.RecordSubscriptionPayment | app/gateways/MeprStripeGateway.php:162-236 | ledger and outcome are SubscriptionPaymentRecorded of the old ledger |
| Gateway.StripeGateway.RecordPaymentFailure | app/gateways/MeprStripeGateway.php:239-288 | ledger and outcome are PaymentFailureRecorded of the old ledger |
| Gateway.StripeGateway.RecordRefund | app/gateways/MeprStripeGateway.php:364-386 | ledger and outcome are RefundRecorded of the old ledger |
| Gateway.StripeGateway.RecordSuspendSubscription | app/gateways/MeprStripeGateway.php:624-640 | ledger and outcome are SuspendRecorded of the old ledger |
| Gateway.StripeGateway.RecordCancelSubscription | app/gateways/MeprStripeGateway.php:761-784 | ledger and outcome are CancelRecorded of the old ledger |
| Gateway.StripeGateway.RecordCreateSubscription | app/gateways/MeprStripeGateway.php:496-559 | ledger and outcome are CreateSubscriptionRecorded of the old ledger |
| Gateway.StripeGateway.RecordResumeSubscription | app/gateways/MeprStripeGateway.php:699-736 | ledger and outcome are ResumeRecorded of the old ledger |
| Gateway.StripeGateway.CreateNewPlanId | app/gateways/MeprStripeGateway.php:1185-1190 | returns the new plan id and stores it as the subscription's cached plan id |
| Gateway.StripeGateway.StripePlan | app/gateways/MeprStripeGateway.php:1127-1174 | the id asked for, the plan meta afterwards, the plan created and the answer are those of ResolvePlan |
| Gateway.StripeGateway.ProcessPayment | app/gateways/MeprStripeGateway.php:93-155 | an unknown transaction or a missing source throws before any request, with no change (the missing-source message ends with " 1 " and the printed request); the charge request is the encoded total with the selected source; a failed charge throws with no change; otherwise the transaction moves under the charge id and is completed as PaymentRecorded |
| Gateway.StripeGateway.ProcessRefund | app/gateways/MeprStripeGateway.php:353-359 | a failed refund request throws with no change; otherwise the refund is recorded as RefundRecorded |
| Gateway.StripeGateway.ProcessSuspendSubscription | app/gateways/MeprStripeGateway.php:605-619 | without a customer it returns false with no change; a failed deletion throws with no change; otherwise SuspendRecorded |
| Gateway.StripeGateway.ProcessCancelSubscription | app/gateways/MeprStripeGateway.php:742-755 | without a customer it returns false with no change; a failed deletion throws with no change; otherwise CancelRecorded |
| Gateway.StripeGateway.StoreSyntheticTrial | app/gateways/MeprStripeGateway.php:653-674 | the subscription is stored with its trial fields set to SyntheticTrial of the old record, and nothing else in the table changes |
| Gateway.StripeGateway.ProcessResumeSubscription | app/gateways/MeprStripeGateway.php:644-694 | the new plan is resolved with the synthetic trial; if that throws, the synthetic fields stay stored; otherwise the saved fields are back, and a successful re-subscription is recorded as ResumeRecorded |
| Gateway.StripeGateway.Listener | app/gateways/MeprStripeGateway.php:1073-1122 | ledger and outcome are Delivered of the old ledger |

## Left out

- HTML, settings and account forms (`display_*`, `validate_*`, `enqueue_*`), and the configuration plumbing (`__construct`, `load`, `set_defaults`, `is_test_mode`, `force_ssl`). They render pages or read settings and hold no reconciliation logic.
- HTTP transport, the Basic-auth header, the request URI, method and timeout, and JSON encoding and decoding. A response arrives already classified as a transport failure, an undecodable body, an error envelope or a resource.
- `process_create_subscription`, `process_update_subscription`, `record_update_subscription` (empty in the source), `stripe_customer`, `process_trial_payment`, `record_trial_payment`, `process_signup_form`, `display_payment_page` and `process_update_account_form`. These create processor customers and subscriptions or forward to other methods. Their results enter the model as parameters: the customer that `stripe_customer` found, and the customer object `record_create_subscription` receives.
- Raw processor responses stored on records (`response`), `created_at`, the gateway id, the coupon beyond copying it, the charge description, metadata, currency code, plan name and statement descriptor are not modelled.
- Debug mail (`email_status`) is left out. `MeprHooks::apply_filters` is taken as the identity.
- Collaborators whose code is not part of this model become parameters:
  - `first_txn`, `latest_txn` (through its expiry), `expiring_txn` (through its status), `is_expired`, `is_lifetime`, and the product's lifetime period type;
  - the upgrade direction behind `is_upgrade`/`is_downgrade`.
  `maybe_cancel_old_sub` is modelled only as setting the prior subscription cancelled. `limit_payment_cycles`, `expire_txns` and `limit_reached_actions` are log entries, and what they do to the ledger is not modelled.
- `uniqid()`, `time()`, the site host and the grace period are parameters. `MeprUtils::tsdays` is taken as whole days rounded toward zero. `MeprUtils::format_float(x, 0)` is taken as rounding half up.
- Floating-point amounts are replaced by exact hundredths.
- The real concurrency between checkout and webhook is not modelled. Their interleavings are modelled as sequences of calls.
- `$_REQUEST['data']` is set on every path that reaches a recording routine, so the "not set" branches are not modelled.
- Reconcile.CreateSubscriptionRecorded: when no subscription matches, the source dereferences the missing record, and the model instead leaves the ledger unchanged. When the subscription has no first transaction, the source reads and updates the missing transaction (lines 521, 533 and 537). It stops with a fatal error after storing the subscription and cancelling the prior one, so no notice goes out. The model instead finishes normally: it records the subscription with the prior one cancelled, leaves the transactions alone, appends CreateNotices naming the absent transaction's key, and returns the subscription id. The source's in-memory restoration of the gross after the confirmation is stored (`set_gross`, line 537) is never stored, so the ledger keeps the zero total.
- Reconcile.ResumeRecorded: when no subscription matches, the source dereferences the missing record, and the model instead leaves the ledger unchanged. The stop-gap transaction's user and product are left at 0, because the source sets only its subscription link.
- Gateway.StripeGateway.ProcessResumeSubscription: an unknown subscription returns false with no change. The source would proceed with an empty record.
- Because transactions are keyed by `trans_num`, storing a row under a key another row already has replaces that row. This can happen when `process_payment` or `record_create_subscription` re-keys a transaction.

## Notes on the source's behaviour

- `stripe_plan` catches every exception from the plan fetch, not only a missing plan, and then creates a new plan (lines 1131-1171). The model follows the code; see Plans.AnyFetchFaultCreates.
- On resumption, the trial is zeroed when the subscription expired after a real (non-confirmed) payment. When it expired on a confirmation, the trial fields are left as they were (lines 657-668). The model follows the code.
- An error envelope and an undecodable body raise the same exception class, with different messages (lines 1259-1265). The model keeps one `RemoteException` with the two messages.
- The code does not enforce a monotonic transaction state machine:
  - `record_payment` completes any matched transaction that is not complete, including a failed or refunded one;
  - `record_payment_failure` fails any matched transaction, including a complete one;
  - `record_suspend_subscription` suspends a cancelled subscription (Reconcile.SuspendOverridesCancelled).
- Both callers of `stripe_plan` in the file, `process_create_subscription` (line 470) and `process_resume_subscription` (line 677), pass `is_new` true. Every subscription creation and every resumption mints one id (line 1133) and fetches a plan under it, which the processor cannot know yet. The fetch fails, so a second id is minted (line 1150) and a new plan is created. The reuse stated by Plans.BootstrapThenReuse only concerns a later call with `is_new` false, and no caller in the file makes one.
- `record_payment_failure` has no short-circuit, so a redelivered failure sends its notice again (Reconcile.PaymentFailureRedelivered).
- The `silent` and `expire` request flags of `record_cancel_subscription` are explicit parameters. The webhook passes neither.
