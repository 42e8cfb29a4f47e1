/**
 * Plan resolution for recurring billing
 * (app/gateways/MeprStripeGateway.php:1124-1190).
 *
 * A subscription's plan id is cached in its post meta; without one it is the
 * subscription's own id. stripe_plan fetches the plan by that id (or by a
 * freshly minted id when asked for a new plan) and, when the fetch throws
 * anything at all, mints another id, stores it, and asks the processor to
 * create the plan from the subscription's price, period and trial.
 */
module Plans {
  import opened Records
  import Currency
  import opened StripeClient

  /** The plan object the processor returns; only its id is read. */
  datatype Plan = Plan(id: string)

  /** The body of the create-plan request. */
  datatype PlanArgs = PlanArgs(
    amount: nat,
    interval: Option<string>,
    intervalCount: nat,
    id: string,
    trialPeriodDays: Option<int>)

  /**
   * The outcome of stripe_plan: the plan id fetched, the post meta afterwards,
   * the plan created (if any) and the answer.
   */
  datatype Resolution = Resolution(asked: string, meta: map<string, string>, created: Option<PlanArgs>, result: Reply<Plan>)

  /** The processor's interval for a period type; the source leaves it unset for other types. */
  function Interval(p: PeriodType): (r: Option<string>)
    ensures r.None? <==> p.Other?
    ensures r.Some? ==> PeriodOf(r.value) == Some(p)
  {
    match p
    case Months => Some("month")
    case Years => Some("year")
    case Weeks => Some("week")
    case Other(_) => None
  }

  /** The period type a processor interval stands for. */
  function PeriodOf(interval: string): (r: Option<PeriodType>)
  {
    if interval == "month" then Some(Months)
    else if interval == "year" then Some(Years)
    else if interval == "week" then Some(Weeks)
    else None
  }

  /** The interval mapping is one-to-one: each interval reads back as the period it came from. */
  lemma IntervalRoundTrip(p: PeriodType, s: string)
    ensures Interval(p) == Some(s) <==> PeriodOf(s) == Some(p)
    ensures Interval(p).None? <==> p.Other?
  {
  }

  /** get_plan_id: the cached plan id, or the subscription id when none is cached. */
  function GetPlanId(meta: map<string, string>, postId: string): (id: string)
    ensures postId in meta && meta[postId] != "" ==> id == meta[postId]
    ensures postId !in meta || meta[postId] == "" ==> id == postId
  {
    if postId in meta && meta[postId] != "" then meta[postId] else postId
  }

  /** create_new_plan_id: subscription id, site host and a unique suffix, joined by dashes. */
  function NewPlanId(postId: string, host: string, uniq: string): (id: string)
    ensures |id| == |postId| + |host| + |uniq| + 2
    ensures id[..|postId|] == postId && id[|postId|] == '-'
    ensures id[|postId| + 1..|postId| + 1 + |host|] == host && id[|postId| + 1 + |host|] == '-'
    ensures id[|id| - |uniq|..] == uniq
  {
    postId + "-" + host + "-" + uniq
  }

  /** The create-plan request for a subscription under a given plan id. */
  function PlanRequest(sub: Sub, id: string, zeroDecimal: bool): (a: PlanArgs)
    ensures a.id == id && a.intervalCount == sub.period && a.interval == Interval(sub.periodType)
    ensures a.amount == Currency.Encode(zeroDecimal, sub.price)
    ensures Currency.Decode(zeroDecimal, a.amount) == sub.price <==> (!zeroDecimal || sub.price % Currency.Hundred == 0)
    ensures a.trialPeriodDays.Some? <==> sub.trial
    ensures sub.trial ==> a.trialPeriodDays.value == sub.trialDays
  {
    Currency.DecodeEncode(zeroDecimal, sub.price);
    PlanArgs(Currency.Encode(zeroDecimal, sub.price), Interval(sub.periodType), sub.period, id,
             if sub.trial then Some(sub.trialDays) else None)
  }

  /**
   * stripe_plan. `firstUniq` is the suffix minted up front when a new plan is
   * asked for, `secondUniq` the one minted on the fallback path; `fetch` and
   * `create` are the processor's answers to the two requests.
   */
  function ResolvePlan(meta: map<string, string>, sub: Sub, isNew: bool, host: string,
                       firstUniq: string, secondUniq: string, zeroDecimal: bool,
                       fetch: Response<Plan>, create: Response<Plan>): (res: Resolution)
    ensures !isNew ==> res.asked == GetPlanId(meta, sub.postId)
    ensures isNew ==> res.asked == NewPlanId(sub.postId, host, firstUniq)
    ensures Classify(true, fetch).Ok? ==> res.created.None? && res.result == Classify(true, fetch)
    ensures Classify(true, fetch).Ok? && !isNew ==> res.meta == meta
    ensures Classify(true, fetch).Ok? && isNew ==> res.meta == meta[sub.postId := NewPlanId(sub.postId, host, firstUniq)]
    ensures !Classify(true, fetch).Ok? ==>
              var id := NewPlanId(sub.postId, host, secondUniq);
              && res.created == Some(PlanRequest(sub, id, zeroDecimal))
              && res.meta == meta[sub.postId := id]
              && res.result == Classify(true, create)
    ensures res.meta.Keys == meta.Keys + (if isNew || res.created.Some? then {sub.postId} else {})
  {
    var meta1 := if isNew then meta[sub.postId := NewPlanId(sub.postId, host, firstUniq)] else meta;
    var planId := GetPlanId(meta1, sub.postId);
    match Classify(true, fetch)
    case Ok(plan) => Resolution(planId, meta1, None, Ok(plan))
    case _ =>
      var id := NewPlanId(sub.postId, host, secondUniq);
      Resolution(planId, meta1[sub.postId := id], Some(PlanRequest(sub, id, zeroDecimal)), Classify(true, create))
  }

  /**
   * Bootstrap then reuse: once a plan has been created for a subscription,
   * the next plain resolution asks for the created id, and when the processor
   * finds it no second plan is created and the cache is left alone.
   */
  lemma BootstrapThenReuse(meta: map<string, string>, sub: Sub, isNew: bool, host: string,
                           u1: string, u2: string, u3: string, u4: string, zeroDecimal: bool,
                           fetch: Response<Plan>, create: Response<Plan>,
                           refetch: Response<Plan>, recreate: Response<Plan>)
    requires !Classify(true, fetch).Ok?
    requires Classify(true, refetch).Ok?
    ensures var first := ResolvePlan(meta, sub, isNew, host, u1, u2, zeroDecimal, fetch, create);
            var second := ResolvePlan(first.meta, sub, false, host, u3, u4, zeroDecimal, refetch, recreate);
            && first.created.Some?
            && second.asked == first.created.value.id
            && second.created.None?
            && second.meta == first.meta
  {
    var first := ResolvePlan(meta, sub, isNew, host, u1, u2, zeroDecimal, fetch, create);
    var id := NewPlanId(sub.postId, host, u2);
    assert first.meta[sub.postId] == id;
    assert |id| > 0;
  }

  /**
   * Every failed fetch leads to a creation, whatever the fault: a transport
   * failure and a decoded error envelope are handled alike.
   */
  lemma AnyFetchFaultCreates(meta: map<string, string>, sub: Sub, isNew: bool, host: string,
                             u1: string, u2: string, zeroDecimal: bool,
                             message: string, errType: string, create: Response<Plan>)
    ensures ResolvePlan(meta, sub, isNew, host, u1, u2, zeroDecimal, TransportFailure, create)
         == ResolvePlan(meta, sub, isNew, host, u1, u2, zeroDecimal, Body(ErrorEnvelope(message, errType)), create)
    ensures ResolvePlan(meta, sub, isNew, host, u1, u2, zeroDecimal, TransportFailure, create).created.Some?
  {
  }
}
