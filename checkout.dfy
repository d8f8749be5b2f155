/**
 * The checkout initiator (src/app/api/checkout/route.ts): look up the plan by slug, start a
 * free plan directly, or prepare a Stripe Checkout session with the right price, a reused
 * or new customer, the trial length and the metadata the webhook later reads back.
 *
 * Stripe's side (customer and session creation) is not modelled beyond what the route
 * sends: the response carries the session request and, when a customer had to be
 * created, the metadata it was created with.
 */
module Checkout {
  import opened Database
  import opened Store
  import opened StripeWebhook

  datatype CheckoutRequest = CheckoutRequest(planSlug: string, billingInterval: string, processor: string,
                                             clinicId: Option<string>)

  /** What the route asks Stripe's `checkout.sessions.create` for. */
  datatype SessionRequest = SessionRequest(customer: string, price: string, trialDays: int,
                                           metadata: map<string, string>, successUrl: string, cancelUrl: string)

  datatype CheckoutResponse =
    | NotAuthenticated
    | PlanNotFound
    | AlreadySubscribed
    | FreePlanStarted
    | PriceNotConfigured
    | SessionCreated(session: SessionRequest, customerCreatedWith: Option<map<string, string>>)
    | ProcessorUnavailable

  function HttpStatus(r: CheckoutResponse): (code: int)
    ensures code == 200 <==> r.FreePlanStarted? || r.SessionCreated?
    ensures code == 400 <==> r.AlreadySubscribed? || r.PriceNotConfigured?
  {
    match r
    case NotAuthenticated => 401
    case PlanNotFound => 404
    case AlreadySubscribed => 400
    case FreePlanStarted => 200
    case PriceNotConfigured => 400
    case SessionCreated(_, _) => 200
    case ProcessorUnavailable => 501
  }

  /** `.eq('slug', slug).eq('is_active', true)`. */
  function ActiveSlugIs(slug: string): Plan -> bool {
    (p: Plan) => p.slug == slug && p.isActive
  }

  /** The plan row `.single()` finds: the id of the one active plan with this slug. */
  function FindPlan(plans: map<string, Plan>, slug: string): Option<string> {
    SingleMatch(plans, ActiveSlugIs(slug))
  }

  /** `.eq('user_id', user).eq('status', 'active')`. */
  function ActiveOf(user: UserId): Subscription -> bool {
    (row: Subscription) => row.userId == Some(user) && HasStatus(row, Active)
  }

  /** `.eq('user_id', user).not('stripe_customer_id', 'is', null)`. */
  function CustomerRowOf(user: UserId): Subscription -> bool {
    (row: Subscription) => row.userId == Some(user) && row.stripeCustomerId.Some?
  }

  /** The row inserted for a free plan; the columns it does not name take their defaults. */
  function FreeRow(user: UserId, planId: string, now: Timestamp): Subscription {
    DefaultRow(now).(subscriberType := User, userId := Some(user), planId := planId, status := StatusName(Active),
                     billingInterval := IntervalName(Free), periodStart := Some(now), periodEnd := None)
  }

  /** The price the session charges: the annual price iff the request says annual. */
  function PriceFor(plan: Plan, billingInterval: string): Option<string> {
    if billingInterval == IntervalName(Annual) then plan.stripePriceIdAnnual else plan.stripePriceId
  }

  /** `plan.trial_days ?? 14`. */
  function TrialPeriodDays(plan: Plan): int {
    if plan.trialDays.Some? then plan.trialDays.value else 14
  }

  function ClinicOrEmpty(clinicId: Option<string>): string {
    if clinicId.Some? then clinicId.value else ""
  }

  /** The subscription metadata the webhook reads back on `checkout.session.completed`. */
  function SessionMetadata(user: UserId, planId: string, req: CheckoutRequest): map<string, string> {
    map["supabase_user_id" := user, "plan_id" := planId, "plan_slug" := req.planSlug,
        "clinic_id" := ClinicOrEmpty(req.clinicId), "billing_interval" := req.billingInterval]
  }

  function SiteUrl(configured: Option<string>): string {
    if configured.Some? then configured.value else "http://localhost:9002"
  }

  /**
   * The customer the session is created for. `pick` is the row the customer query
   * returned (any one of the user's rows with a customer id); a row whose id is empty
   * does not count, and a new customer is created instead.
   */
  predicate ReusesCustomer(subs: map<SubId, Subscription>, pick: Option<SubId>) {
    pick.Some? && pick.value in subs && Truthy(subs[pick.value].stripeCustomerId)
  }

  function CustomerFor(subs: map<SubId, Subscription>, pick: Option<SubId>, newCustomer: string): string {
    if ReusesCustomer(subs, pick) then subs[pick.value].stripeCustomerId.value else newCustomer
  }

  /** `pick` is an answer the customer query can give. */
  predicate ValidPick(subs: map<SubId, Subscription>, user: UserId, pick: Option<SubId>) {
    if pick.Some? then pick.value in subs && CustomerRowOf(user)(subs[pick.value])
    else forall k :: k in subs ==> !CustomerRowOf(user)(subs[k])
  }

  /** The route as a function of the store, the signed-in user and the query's answer. */
  function CheckoutRoute(t: Tables, user: Option<UserId>, req: CheckoutRequest, pick: Option<SubId>,
                         newCustomer: string, siteUrl: Option<string>, now: Timestamp): (Tables, CheckoutResponse)
  {
    if user.None? then (t, NotAuthenticated)
    else
      var found := FindPlan(t.plans, req.planSlug);
      if found.None? then (t, PlanNotFound)
      else
        var planId := found.value;
        var plan := t.plans[planId];
        if plan.billingInterval == Free then
          if AnyMatch(t.subs, ActiveOf(user.value)) then (t, AlreadySubscribed)
          else (Recompute(InsertSub(t, FreeRow(user.value, planId, now)), user.value), FreePlanStarted)
        else if req.processor == "stripe" then
          var price := PriceFor(plan, req.billingInterval);
          if !Truthy(price) then (t, PriceNotConfigured)
          else
            var customer := CustomerFor(t.subs, pick, newCustomer);
            var created := if !ReusesCustomer(t.subs, pick) then Some(map["supabase_user_id" := user.value, "clinic_id" := ClinicOrEmpty(req.clinicId)])
                           else None;
            var site := SiteUrl(siteUrl);
            (t, SessionCreated(SessionRequest(customer, price.value, TrialPeriodDays(plan),
                                              SessionMetadata(user.value, planId, req),
                                              site + "/dashboard?payment=success", site + "/pricing?payment=canceled"),
                               created))
        else (t, ProcessorUnavailable)
  }

  method Post(st: Store, user: Option<UserId>, req: CheckoutRequest, newCustomer: string, siteUrl: Option<string>,
              now: Timestamp) returns (response: CheckoutResponse, pick: Option<SubId>)
    requires st.Valid()
    modifies st
    ensures st.Valid()
    ensures user.Some? ==> ValidPick(old(st.subs), user.value, pick)
    ensures (st.Snapshot(), response) == CheckoutRoute(old(st.Snapshot()), user, req, pick, newCustomer, siteUrl, now)
  {
    pick := None;
    if user.None? {
      return NotAuthenticated, pick;
    }
    var u := user.value;
    if exists k :: k in st.subs && CustomerRowOf(u)(st.subs[k]) {
      var k :| k in st.subs && CustomerRowOf(u)(st.subs[k]);
      pick := Some(k);
    }
    var found := FindPlan(st.plans, req.planSlug);
    if found.None? {
      return PlanNotFound, pick;
    }
    var plan := st.plans[found.value];
    if plan.billingInterval == Free {
      if AnyMatch(st.subs, ActiveOf(u)) {
        return AlreadySubscribed, pick;
      }
      var _ := st.InsertSubscription(FreeRow(u, found.value, now));
      st.RecomputeAccess(u);
      return FreePlanStarted, pick;
    }
    if req.processor != "stripe" {
      return ProcessorUnavailable, pick;
    }
    var price := PriceFor(plan, req.billingInterval);
    if !Truthy(price) {
      return PriceNotConfigured, pick;
    }
    var customer: string;
    var created: Option<map<string, string>> := None;
    if pick.Some? && Truthy(st.subs[pick.value].stripeCustomerId) {
      customer := st.subs[pick.value].stripeCustomerId.value;
    } else {
      customer := newCustomer;
      created := Some(map["supabase_user_id" := u, "clinic_id" := ClinicOrEmpty(req.clinicId)]);
    }
    var site := SiteUrl(siteUrl);
    response := SessionCreated(SessionRequest(customer, price.value, TrialPeriodDays(plan), SessionMetadata(u, found.value, req),
                                              site + "/dashboard?payment=success", site + "/pricing?payment=canceled"),
                               created);
  }

  // ---------------------------------------------------------------------------
  // Properties.

  /** An unauthenticated caller gets 401, and an unknown or inactive plan slug 404; neither writes. */
  lemma EarlyExits(t: Tables, user: Option<UserId>, req: CheckoutRequest, pick: Option<SubId>, newCustomer: string,
                   siteUrl: Option<string>, now: Timestamp)
    ensures user.None? ==>
      CheckoutRoute(t, user, req, pick, newCustomer, siteUrl, now) == (t, NotAuthenticated) && HttpStatus(NotAuthenticated) == 401
    ensures user.Some? && (forall id :: id in t.plans ==> t.plans[id].slug != req.planSlug || !t.plans[id].isActive) ==>
      CheckoutRoute(t, user, req, pick, newCustomer, siteUrl, now) == (t, PlanNotFound) && HttpStatus(PlanNotFound) == 404
  {
  }

  /** Only the free plan writes, and it writes one active, processor-free user row and recomputes access. */
  lemma FreePlanInsertsOneRow(t: Tables, user: UserId, req: CheckoutRequest, pick: Option<SubId>, newCustomer: string,
                              siteUrl: Option<string>, now: Timestamp)
    requires FreshIds(t)
    ensures var (r, response) := CheckoutRoute(t, Some(user), req, pick, newCustomer, siteUrl, now);
      (response != FreePlanStarted ==> r == t) &&
      (response == FreePlanStarted ==>
        var planId := FindPlan(t.plans, req.planSlug).value;
        var row := FreeRow(user, planId, now);
        t.plans[planId].billingInterval == Free && !AnyMatch(t.subs, ActiveOf(user)) &&
        t.nextId !in t.subs && r.subs == t.subs[t.nextId := row] && r.recomputed == t.recomputed + {user} &&
        row.subscriberType == User && row.userId == Some(user) && HasStatus(row, Active) &&
        row.billingInterval == "free" && row.periodEnd.None? && row.processor.None? &&
        row.stripeSubId.None? && row.stripeCustomerId.None? && row.conektaSubId.None? && row.conektaCustomerId.None?)
  {
  }

  /** A user who already has an active subscription is refused the free plan and nothing is written. */
  lemma FreePlanRefusedWhenActive(t: Tables, user: UserId, req: CheckoutRequest, pick: Option<SubId>, newCustomer: string,
                                  siteUrl: Option<string>, now: Timestamp, k: SubId)
    requires FindPlan(t.plans, req.planSlug).Some? && t.plans[FindPlan(t.plans, req.planSlug).value].billingInterval == Free
    requires k in t.subs && t.subs[k].userId == Some(user) && HasStatus(t.subs[k], Active)
    ensures CheckoutRoute(t, Some(user), req, pick, newCustomer, siteUrl, now) == (t, AlreadySubscribed)
  {
    assert ActiveOf(user)(t.subs[k]);
  }

  /** The annual price is used iff the request says annual; a missing or empty one is a 400. */
  lemma PriceSelection(t: Tables, user: UserId, req: CheckoutRequest, pick: Option<SubId>, newCustomer: string,
                       siteUrl: Option<string>, now: Timestamp)
    requires FindPlan(t.plans, req.planSlug).Some?
    requires t.plans[FindPlan(t.plans, req.planSlug).value].billingInterval != Free && req.processor == "stripe"
    ensures var plan := t.plans[FindPlan(t.plans, req.planSlug).value];
      var expected := if req.billingInterval == "annual" then plan.stripePriceIdAnnual else plan.stripePriceId;
      var response := CheckoutRoute(t, Some(user), req, pick, newCustomer, siteUrl, now).1;
      (response == PriceNotConfigured <==> !Truthy(expected)) &&
      (response.SessionCreated? <==> Truthy(expected)) &&
      (response.SessionCreated? ==> response.session.price == expected.value)
  {
  }

  /**
   * An existing customer id is reused; a customer is created, with the user's id in its
   * metadata, only when the query found no row or a row with an empty id.
   */
  lemma CustomerReuse(t: Tables, user: UserId, req: CheckoutRequest, pick: Option<SubId>, newCustomer: string,
                      siteUrl: Option<string>, now: Timestamp)
    requires ValidPick(t.subs, user, pick)
    ensures var response := CheckoutRoute(t, Some(user), req, pick, newCustomer, siteUrl, now).1;
      response.SessionCreated? ==>
        (pick.Some? && Truthy(t.subs[pick.value].stripeCustomerId) ==>
           response.session.customer == t.subs[pick.value].stripeCustomerId.value && response.customerCreatedWith.None?) &&
        (!(pick.Some? && Truthy(t.subs[pick.value].stripeCustomerId)) ==>
           response.session.customer == newCustomer && response.customerCreatedWith.Some? &&
           response.customerCreatedWith.value["supabase_user_id"] == user)
  {
  }

  /** With no customer row at all, the session always gets a new customer. */
  lemma NoCustomerRowCreatesCustomer(t: Tables, user: UserId, req: CheckoutRequest, pick: Option<SubId>,
                                     newCustomer: string, siteUrl: Option<string>, now: Timestamp)
    requires ValidPick(t.subs, user, pick)
    ensures (forall k :: k in t.subs ==> !(t.subs[k].userId == Some(user) && t.subs[k].stripeCustomerId.Some?)) ==>
      var response := CheckoutRoute(t, Some(user), req, pick, newCustomer, siteUrl, now).1;
      pick.None? && (response.SessionCreated? ==> response.session.customer == newCustomer && response.customerCreatedWith.Some?)
  {
    if pick.Some? {
      assert CustomerRowOf(user)(t.subs[pick.value]);
    }
  }

  /** Trial length defaults to 14 days; a paid plan over any processor but Stripe gets 501. */
  lemma SessionTrialAndProcessor(t: Tables, user: UserId, req: CheckoutRequest, pick: Option<SubId>,
                                 newCustomer: string, siteUrl: Option<string>, now: Timestamp)
    requires FindPlan(t.plans, req.planSlug).Some?
    requires t.plans[FindPlan(t.plans, req.planSlug).value].billingInterval != Free
    ensures var plan := t.plans[FindPlan(t.plans, req.planSlug).value];
      var response := CheckoutRoute(t, Some(user), req, pick, newCustomer, siteUrl, now).1;
      (req.processor != "stripe" ==> response == ProcessorUnavailable) &&
      (response.SessionCreated? ==>
        response.session.trialDays == (if plan.trialDays.None? then 14 else plan.trialDays.value))
  {
  }

  /**
   * The metadata the route sends as `subscription_data.metadata` would pass the webhook's
   * guard on `checkout.session.completed` whenever the user and plan ids are non-empty,
   * and would record a clinic iff the request named a non-empty clinic id. Whether the
   * completed session carries this map back is up to Stripe and is not modelled.
   */
  lemma MetadataReachesWebhook(user: UserId, planId: string, req: CheckoutRequest)
    requires user != "" && planId != ""
    ensures var meta := SessionMetadata(user, planId, req);
      Lookup(meta, "supabase_user_id") == Some(user) && Lookup(meta, "plan_id") == Some(planId) &&
      Truthy(Lookup(meta, "supabase_user_id")) && Truthy(Lookup(meta, "plan_id")) &&
      (OrNull(Lookup(meta, "clinic_id")).Some? <==> Truthy(req.clinicId)) &&
      Lookup(meta, "billing_interval") == Some(req.billingInterval)
  {
  }
}
