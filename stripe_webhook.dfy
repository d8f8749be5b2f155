/**
 * The Stripe webhook (src/app/api/webhooks/stripe/route.ts): signature guard, the shared
 * idempotency gate and log transitions, and the five event handlers.
 *
 * Stripe's answers are parameters: the outcome of `constructEvent` (the envelope, or None
 * when verification threw) and of `subscriptions.retrieve` (a `Retrieval`).
 */
module StripeWebhook {
  import opened Database
  import opened Store
  import opened Text
  import opened WebhookLog

  /** The fields of a Stripe subscription object the handlers read; periods are epoch seconds. */
  datatype StripeSubscription = StripeSubscription(
    id: string,
    status: string,
    customer: string,
    trialEnd: Option<int>,
    periodStart: Option<int>,
    periodEnd: Option<int>,
    cancelAtPeriodEnd: bool)

  /** What `stripe.subscriptions.retrieve` did: returned an object or threw. */
  datatype Retrieval = Retrieved(sub: StripeSubscription) | RetrieveThrew(message: string)

  /**
   * A checkout session as the handler reads it: `subscriptionMetadata` is the session's
   * `subscription_data.metadata`, when present. The handler reaches that field through an
   * untyped cast; a session delivered without it carries `None`.
   */
  datatype CheckoutSession = CheckoutSession(mode: string, subscription: string, subscriptionMetadata: Option<map<string, string>>)

  datatype StripeInvoice = StripeInvoice(id: string, subscription: Option<string>, amountPaid: int, currency: string, tax: Option<int>)

  /** The event types the switch handles. */
  const HandledTypes: set<string> :=
    {"checkout.session.completed", "invoice.payment_succeeded", "invoice.payment_failed",
     "customer.subscription.deleted", "customer.subscription.updated"}

  /** The type of an event the switch ignores: any name but a handled one. */
  type OtherType = t: string | t !in HandledTypes witness ""

  datatype StripeEvent =
    | CheckoutSessionCompleted(session: CheckoutSession)
    | InvoicePaymentSucceeded(invoice: StripeInvoice)
    | InvoicePaymentFailed(failedSubscription: Option<string>)
    | SubscriptionDeleted(deletedId: string)
    | SubscriptionUpdated(updated: StripeSubscription)
    | OtherEvent(otherType: OtherType)

  datatype StripeEnvelope = StripeEnvelope(id: string, event: StripeEvent)

  /** The logged `type`: a handled name exactly for the events the switch handles. */
  function EventType(e: StripeEvent): (r: string)
    ensures r in HandledTypes <==> !e.OtherEvent?
  {
    match e
    case CheckoutSessionCompleted(_) => "checkout.session.completed"
    case InvoicePaymentSucceeded(_) => "invoice.payment_succeeded"
    case InvoicePaymentFailed(_) => "invoice.payment_failed"
    case SubscriptionDeleted(_) => "customer.subscription.deleted"
    case SubscriptionUpdated(_) => "customer.subscription.updated"
    case OtherEvent(t) => t
  }

  /** The message of the RangeError `new Date(NaN).toISOString()` throws for an absent period. */
  const InvalidTimeValue: string := "Invalid time value"

  predicate HasPeriod(s: StripeSubscription) {
    s.periodStart.Some? && s.periodEnd.Some?
  }

  /** `sub.trial_end ? <date> : null`: zero or absent means no trial end. */
  function TrialEndsAt(s: StripeSubscription): (r: Option<Timestamp>)
    ensures r.Some? <==> s.trialEnd.Some? && s.trialEnd.value != 0
    ensures r.Some? ==> r == s.trialEnd
  {
    if s.trialEnd.Some? && s.trialEnd.value != 0 then s.trialEnd else None
  }

  function Lookup(m: map<string, string>, k: string): Option<string> {
    if k in m then Some(m[k]) else None
  }

  predicate HasStripeId(row: Subscription, id: string) {
    row.stripeSubId == Some(id)
  }

  /** The row filter `.eq('stripe_subscription_id', id)`. */
  function StripeIdIs(id: string): Subscription -> bool {
    (row: Subscription) => HasStripeId(row, id)
  }

  /** `.eq('stripe_subscription_id', id).single()`. */
  function ByStripeId(t: Tables, id: string): (r: Option<SubId>)
    ensures r.Some? ==> r.value in t.subs && HasStripeId(t.subs[r.value], id)
  {
    SingleMatch(t.subs, StripeIdIs(id))
  }

  /** Both tables hold the same row ids with the same Stripe subscription ids. */
  predicate SameStripeIds(a: Tables, b: Tables) {
    a.subs.Keys == b.subs.Keys && forall k :: k in a.subs ==> a.subs[k].stripeSubId == b.subs[k].stripeSubId
  }

  lemma LookupKept(a: Tables, b: Tables, id: string)
    requires SameStripeIds(a, b)
    ensures ByStripeId(a, id) == ByStripeId(b, id)
  {
    SameMatches(a.subs, StripeIdIs(id), b.subs, StripeIdIs(id));
  }

  /** The values of the columns a new row gets from its defaults, before the upsert's columns. */
  function DefaultRow(now: Timestamp): Subscription {
    Subscription(User, None, None, "", "", "", None, None, None, None, false, None, None, None, None, None, None, now)
  }

  /** The columns the checkout upsert names, written over `row`; the others keep their values. */
  function WriteCheckout(row: Subscription, userId: string, planId: string, interval: string,
                         clinic: Option<string>, sub: StripeSubscription): Subscription
  {
    var kind := if clinic.Some? then Clinic else User;
    row.(subscriberType := kind,
         userId := if kind == User then Some(userId) else None,
         clinicId := if kind == Clinic then clinic else None,
         planId := planId,
         status := if sub.status == "trialing" then StatusName(Trialing) else StatusName(Active),
         billingInterval := interval,
         stripeSubId := Some(sub.id),
         stripeCustomerId := Some(sub.customer),
         processor := Some(Stripe),
         trialEndsAt := TrialEndsAt(sub),
         periodStart := sub.periodStart,
         periodEnd := sub.periodEnd)
  }

  /** `upsert(..., { onConflict: 'stripe_subscription_id' })`. */
  function UpsertByStripeId(t: Tables, id: string, write: Subscription -> Subscription, now: Timestamp): (r: Tables)
    ensures FreshIds(t) ==> FreshIds(r)
    ensures r.events == t.events && r.invoices == t.invoices && r.audit == t.audit && r.recomputed == t.recomputed
  {
    if AnyMatch(t.subs, StripeIdIs(id)) then
      UpdateWhere(t, StripeIdIs(id), write)
    else InsertSub(t, write(DefaultRow(now)))
  }

  // ---------------------------------------------------------------------------
  // The handlers, as functions of the tables.

  function MetadataOf(s: CheckoutSession): map<string, string> {
    if s.subscriptionMetadata.Some? then s.subscriptionMetadata.value else map[]
  }

  /**
   * What every handler leaves alone: the event log; fresh ids stay fresh, the audit trail
   * only grows, and the invoices are untouched unless `appends`, when one may be added.
   */
  predicate Confined(t: Tables, r: Tables, appends: bool) {
    r.events == t.events && (FreshIds(t) ==> FreshIds(r)) && t.audit <= r.audit &&
    (r.invoices == t.invoices || (appends && |r.invoices| == |t.invoices| + 1 && r.invoices[..|t.invoices|] == t.invoices))
  }

  function OnCheckoutCompleted(t: Tables, s: CheckoutSession, retrieve: Retrieval, now: Timestamp): (h: Handled)
    ensures s.mode != "subscription" ==> h == Handled(t, None)
    ensures !Truthy(Lookup(MetadataOf(s), "supabase_user_id")) || !Truthy(Lookup(MetadataOf(s), "plan_id")) ==> h == Handled(t, None)
    ensures Confined(t, h.tables, false) && (h.thrown.Some? ==> h.tables == t)
  {
    if s.mode != "subscription" then Handled(t, None)
    else
      var meta := MetadataOf(s);
      var userId := Lookup(meta, "supabase_user_id");
      var planId := Lookup(meta, "plan_id");
      var interval := if "billing_interval" in meta then meta["billing_interval"] else IntervalName(Monthly);
      var clinic := OrNull(Lookup(meta, "clinic_id"));
      if !Truthy(userId) || !Truthy(planId) then Handled(t, None)
      else match retrieve
        case RetrieveThrew(m) => Handled(t, Some(m))
        case Retrieved(sub) =>
          if !HasPeriod(sub) then Handled(t, Some(InvalidTimeValue))
          else
            var t1 := UpsertByStripeId(t, sub.id, (row: Subscription) => WriteCheckout(row, userId.value, planId.value, interval, clinic, sub), now);
            var t2 := Recompute(t1, userId.value);
            Handled(AppendAudit(t2, AuditEntry(userId, "subscription_created", None)), None)
  }

  function PaidInvoice(id: SubId, row: Subscription, inv: StripeInvoice, sub: StripeSubscription): Invoice {
    Invoice(id, row.userId, row.clinicId, inv.amountPaid, Upper(inv.currency),
            if inv.tax.Some? then inv.tax.value else 0, InvoiceStatus.Paid, Some(Stripe), Some(inv.id),
            sub.periodStart, sub.periodEnd, NoCfdi)
  }

  function OnPaymentSucceeded(t: Tables, inv: StripeInvoice, retrieve: Retrieval): (h: Handled)
    ensures SameStripeIds(t, h.tables)
    ensures !Truthy(inv.subscription) || ByStripeId(t, inv.subscription.value).None? ==> h == Handled(t, None)
    ensures Confined(t, h.tables, true) && (h.thrown.Some? ==> h.tables == t)
  {
    if !Truthy(inv.subscription) then Handled(t, None)
    else match ByStripeId(t, inv.subscription.value)
      case None => Handled(t, None)
      case Some(id) =>
        match retrieve
        case RetrieveThrew(m) => Handled(t, Some(m))
        case Retrieved(sub) =>
          if !HasPeriod(sub) then Handled(t, Some(InvalidTimeValue))
          else
            var row := t.subs[id];
            var t1 := UpdateSub(t, id, (r: Subscription) => r.(status := StatusName(Active), graceEndsAt := None,
                                                               periodStart := sub.periodStart, periodEnd := sub.periodEnd));
            var t2 := AppendInvoice(t1, PaidInvoice(id, row, inv, sub));
            Handled(RecomputeIfUser(t2, row.userId), None)
  }

  function OnPaymentFailed(t: Tables, subscription: Option<string>, now: Timestamp): (h: Handled)
    ensures SameStripeIds(t, h.tables)
    ensures !Truthy(subscription) || ByStripeId(t, subscription.value).None? ==> h == Handled(t, None)
    ensures h.thrown.None?
    ensures Confined(t, h.tables, false)
  {
    if !Truthy(subscription) then Handled(t, None)
    else match ByStripeId(t, subscription.value)
      case None => Handled(t, None)
      case Some(id) =>
        var row := t.subs[id];
        var graceEnds := now + GraceDays(t.plans, row.planId) * DaySeconds;
        var t1 := UpdateSub(t, id, (r: Subscription) => r.(status := StatusName(PastDue), graceEndsAt := Some(graceEnds)));
        Handled(RecomputeIfUser(t1, row.userId), None)
  }

  function OnSubscriptionDeleted(t: Tables, stripeId: string, now: Timestamp): (h: Handled)
    ensures SameStripeIds(t, h.tables)
    ensures ByStripeId(t, stripeId).None? ==> h == Handled(t, None)
    ensures h.thrown.None?
    ensures Confined(t, h.tables, false)
  {
    match ByStripeId(t, stripeId)
    case None => Handled(t, None)
    case Some(id) =>
      var row := t.subs[id];
      var t1 := UpdateSub(t, id, (r: Subscription) => r.(status := StatusName(Expired), canceledAt := Some(now)));
      var t2 := RecomputeIfUser(t1, row.userId);
      Handled(AppendAudit(t2, AuditEntry(None, "subscription_expired", Some(id))), None)
  }

  function OnSubscriptionUpdated(t: Tables, sub: StripeSubscription): (h: Handled)
    ensures SameStripeIds(t, h.tables)
    ensures ByStripeId(t, sub.id).None? ==> h == Handled(t, None)
    ensures Confined(t, h.tables, false) && (h.thrown.Some? ==> h.tables == t)
  {
    match ByStripeId(t, sub.id)
    case None => Handled(t, None)
    case Some(id) =>
      if !HasPeriod(sub) then Handled(t, Some(InvalidTimeValue))
      else
        var row := t.subs[id];
        var t1 := UpdateSub(t, id, (r: Subscription) => r.(status := sub.status, cancelAtPeriodEnd := sub.cancelAtPeriodEnd,
                                                           periodStart := sub.periodStart, periodEnd := sub.periodEnd));
        Handled(RecomputeIfUser(t1, row.userId), None)
  }

  /** `handleStripeEvent`. */
  function HandleStripe(t: Tables, e: StripeEvent, retrieve: Retrieval, now: Timestamp): (h: Handled)
    ensures KeepsLog(h, t)
    ensures Confined(t, h.tables, e.InvoicePaymentSucceeded?)
    ensures h.thrown.Some? ==> h.tables == t
    ensures e.OtherEvent? ==> h == Handled(t, None)
  {
    match e
    case CheckoutSessionCompleted(s) => OnCheckoutCompleted(t, s, retrieve, now)
    case InvoicePaymentSucceeded(inv) => OnPaymentSucceeded(t, inv, retrieve)
    case InvoicePaymentFailed(s) => OnPaymentFailed(t, s, now)
    case SubscriptionDeleted(id) => OnSubscriptionDeleted(t, id, now)
    case SubscriptionUpdated(sub) => OnSubscriptionUpdated(t, sub)
    case OtherEvent(_) => Handled(t, None)
  }

  /** `POST`: the signature guards, then the gate and log around `handleStripeEvent`. */
  function StripePost(t: Tables, signature: Option<string>, verdict: Option<StripeEnvelope>, retrieve: Retrieval,
                      faults: LogFaults, now: Timestamp): (d: Delivery)
    ensures !Truthy(signature) ==> d == Delivery(t, BadRequest("No signature"))
    ensures Truthy(signature) && verdict.None? ==> d == Delivery(t, BadRequest("Invalid signature"))
    ensures verdict.Some? && AlreadyProcessed(t.events, EventKey(Stripe, verdict.value.id)) ==> d.tables == t
  {
    if !Truthy(signature) then Delivery(t, BadRequest("No signature"))
    else if verdict.None? then Delivery(t, BadRequest("Invalid signature"))
    else
      var env := verdict.value;
      var key := EventKey(Stripe, env.id);
      var began := Begun(t, key, EventType(env.event), faults);
      Dispatch(t, key, EventType(env.event), HandleStripe(began, env.event, retrieve, now), faults, now)
  }

  // ---------------------------------------------------------------------------
  // The route as it runs: step-by-step writes to the store.

  method ApplyCheckoutCompleted(st: Store, s: CheckoutSession, retrieve: Retrieval, now: Timestamp) returns (thrown: Option<string>)
    requires st.Valid()
    modifies st
    ensures st.Valid()
    ensures Handled(st.Snapshot(), thrown) == OnCheckoutCompleted(old(st.Snapshot()), s, retrieve, now)
  {
    thrown := None;
    if s.mode != "subscription" { return; }
    var meta := MetadataOf(s);
    var userId := Lookup(meta, "supabase_user_id");
    var planId := Lookup(meta, "plan_id");
    var interval := if "billing_interval" in meta then meta["billing_interval"] else IntervalName(Monthly);
    var clinic := OrNull(Lookup(meta, "clinic_id"));
    if !Truthy(userId) || !Truthy(planId) { return; }
    if retrieve.RetrieveThrew? { return Some(retrieve.message); }
    var sub := retrieve.sub;
    if !HasPeriod(sub) { return Some(InvalidTimeValue); }
    var write := (row: Subscription) => WriteCheckout(row, userId.value, planId.value, interval, clinic, sub);
    if AnyMatch(st.subs, StripeIdIs(sub.id)) {
      st.UpdateSubscriptionsWhere(StripeIdIs(sub.id), write);
    } else {
      var _ := st.InsertSubscription(write(DefaultRow(now)));
    }
    st.RecomputeAccess(userId.value);
    st.InsertAudit(AuditEntry(userId, "subscription_created", None));
  }

  method ApplyPaymentSucceeded(st: Store, inv: StripeInvoice, retrieve: Retrieval) returns (thrown: Option<string>)
    requires st.Valid()
    modifies st
    ensures st.Valid()
    ensures Handled(st.Snapshot(), thrown) == OnPaymentSucceeded(old(st.Snapshot()), inv, retrieve)
  {
    thrown := None;
    if !Truthy(inv.subscription) { return; }
    var found := SingleMatch(st.subs, StripeIdIs(inv.subscription.value));
    if found.None? { return; }
    var id := found.value;
    var row := st.subs[id];
    if retrieve.RetrieveThrew? { return Some(retrieve.message); }
    var sub := retrieve.sub;
    if !HasPeriod(sub) { return Some(InvalidTimeValue); }
    st.UpdateSubscription(id, (r: Subscription) => r.(status := StatusName(Active), graceEndsAt := None,
                                                     periodStart := sub.periodStart, periodEnd := sub.periodEnd));
    st.InsertInvoice(PaidInvoice(id, row, inv, sub));
    if Truthy(row.userId) { st.RecomputeAccess(row.userId.value); }
  }

  method ApplyPaymentFailed(st: Store, s: Option<string>, now: Timestamp)
    requires st.Valid()
    modifies st
    ensures st.Valid()
    ensures st.Snapshot() == OnPaymentFailed(old(st.Snapshot()), s, now).tables
  {
    if !Truthy(s) { return; }
    var found := SingleMatch(st.subs, StripeIdIs(s.value));
    if found.None? { return; }
    var id := found.value;
    var row := st.subs[id];
    var graceEnds := now + GraceDays(st.plans, row.planId) * DaySeconds;
    st.UpdateSubscription(id, (r: Subscription) => r.(status := StatusName(PastDue), graceEndsAt := Some(graceEnds)));
    if Truthy(row.userId) { st.RecomputeAccess(row.userId.value); }
  }

  method ApplySubscriptionDeleted(st: Store, stripeId: string, now: Timestamp)
    requires st.Valid()
    modifies st
    ensures st.Valid()
    ensures st.Snapshot() == OnSubscriptionDeleted(old(st.Snapshot()), stripeId, now).tables
  {
    var found := SingleMatch(st.subs, StripeIdIs(stripeId));
    if found.None? { return; }
    var id := found.value;
    var row := st.subs[id];
    st.UpdateSubscription(id, (r: Subscription) => r.(status := StatusName(Expired), canceledAt := Some(now)));
    if Truthy(row.userId) { st.RecomputeAccess(row.userId.value); }
    st.InsertAudit(AuditEntry(None, "subscription_expired", Some(id)));
  }

  method ApplySubscriptionUpdated(st: Store, sub: StripeSubscription) returns (thrown: Option<string>)
    requires st.Valid()
    modifies st
    ensures st.Valid()
    ensures Handled(st.Snapshot(), thrown) == OnSubscriptionUpdated(old(st.Snapshot()), sub)
  {
    thrown := None;
    var found := SingleMatch(st.subs, StripeIdIs(sub.id));
    if found.None? { return; }
    var id := found.value;
    var row := st.subs[id];
    if !HasPeriod(sub) { return Some(InvalidTimeValue); }
    st.UpdateSubscription(id, (r: Subscription) => r.(status := sub.status, cancelAtPeriodEnd := sub.cancelAtPeriodEnd,
                                                     periodStart := sub.periodStart, periodEnd := sub.periodEnd));
    if Truthy(row.userId) { st.RecomputeAccess(row.userId.value); }
  }

  method HandleStripeEvent(st: Store, e: StripeEvent, retrieve: Retrieval, now: Timestamp) returns (thrown: Option<string>)
    requires st.Valid()
    modifies st
    ensures st.Valid()
    ensures Handled(st.Snapshot(), thrown) == HandleStripe(old(st.Snapshot()), e, retrieve, now)
  {
    thrown := None;
    match e {
      case CheckoutSessionCompleted(s) => thrown := ApplyCheckoutCompleted(st, s, retrieve, now);
      case InvoicePaymentSucceeded(inv) => thrown := ApplyPaymentSucceeded(st, inv, retrieve);
      case InvoicePaymentFailed(s) => ApplyPaymentFailed(st, s, now);
      case SubscriptionDeleted(id) => ApplySubscriptionDeleted(st, id, now);
      case SubscriptionUpdated(sub) => thrown := ApplySubscriptionUpdated(st, sub);
      case OtherEvent(_) =>
    }
  }

  method Post(st: Store, signature: Option<string>, verdict: Option<StripeEnvelope>, retrieve: Retrieval,
              faults: LogFaults, now: Timestamp) returns (response: WebhookResponse)
    requires st.Valid()
    modifies st
    ensures st.Valid()
    ensures Delivery(st.Snapshot(), response) == StripePost(old(st.Snapshot()), signature, verdict, retrieve, faults, now)
  {
    if !Truthy(signature) { return BadRequest("No signature"); }
    if verdict.None? { return BadRequest("Invalid signature"); }
    var env := verdict.value;
    var key := EventKey(Stripe, env.id);
    if key in st.events && st.events[key].status == Processed { return SkippedDuplicate; }
    if !faults.recordLost {
      st.events := BeginProcessing(st.events, key, EventType(env.event));
    }
    var thrown := HandleStripeEvent(st, env.event, retrieve, now);
    var marks := !faults.recordLost && !faults.markLost;
    if thrown.None? {
      if marks { st.events := MarkProcessed(st.events, key, now); }
      response := Acknowledged;
    } else {
      if marks { st.events := MarkFailed(st.events, key, thrown.value); }
      response := ServerError(thrown.value);
    }
  }

  // ---------------------------------------------------------------------------
  // Properties.

  /** The unique index on stripe_subscription_id that the checkout upsert's onConflict relies on. */
  predicate UniqueStripeIds(t: Tables) {
    forall j, k ::
      j in t.subs && k in t.subs && t.subs[j].stripeSubId.Some? && t.subs[j].stripeSubId == t.subs[k].stripeSubId ==> j == k
  }

  /**
   * The upsert leaves exactly one row carrying the Stripe id: the existing row rewritten,
   * or a new row under a fresh id built from the column defaults. No other row changes.
   */
  lemma UpsertLocates(t: Tables, id: string, write: Subscription -> Subscription, now: Timestamp) returns (target: SubId)
    requires FreshIds(t) && UniqueStripeIds(t)
    requires forall row :: HasStripeId(write(row), id)
    ensures var r := UpsertByStripeId(t, id, write, now);
      ByStripeId(r, id) == Some(target) &&
      r.subs[target] == write(if target in t.subs then t.subs[target] else DefaultRow(now)) &&
      (forall k :: k in t.subs && k != target ==> k in r.subs && r.subs[k] == t.subs[k])
  {
    var hit := StripeIdIs(id);
    var r := UpsertByStripeId(t, id, write, now);
    if AnyMatch(t.subs, hit) {
      var k :| k in t.subs && hit(t.subs[k]);
      target := k;
      assert forall j :: j in t.subs && hit(t.subs[j]) ==> j == k;
    } else {
      target := t.nextId;
    }
    assert forall j :: j in r.subs && hit(r.subs[j]) ==> j == target;
    SingleMatchOne(r.subs, hit, target);
  }

  /**
   * The handler reads its context only from `subscription_data.metadata`: a completed
   * session that does not carry that field is ignored, whatever its other metadata and
   * whatever Stripe would return for the subscription.
   */
  lemma SessionWithoutSubscriptionDataIgnored(t: Tables, s: CheckoutSession, retrieve: Retrieval, now: Timestamp)
    requires s.subscriptionMetadata.None?
    ensures OnCheckoutCompleted(t, s, retrieve, now) == Handled(t, None)
  {
  }

  /**
   * A completed subscription checkout leaves exactly one row for the Stripe subscription:
   * trialing iff Stripe says trialing (active otherwise), a clinic row iff the metadata
   * carries a non-empty clinic id, owned by the metadata's user or clinic, on Stripe. The
   * user's access is recomputed and one audit entry is appended; no other row changes.
   */
  lemma CheckoutOutcome(t: Tables, s: CheckoutSession, sub: StripeSubscription, now: Timestamp)
    requires FreshIds(t) && UniqueStripeIds(t)
    requires s.mode == "subscription"
    requires Truthy(Lookup(MetadataOf(s), "supabase_user_id")) && Truthy(Lookup(MetadataOf(s), "plan_id"))
    requires HasPeriod(sub)
    ensures var h := OnCheckoutCompleted(t, s, Retrieved(sub), now);
      var meta := MetadataOf(s);
      var found := ByStripeId(h.tables, sub.id);
      h.thrown.None? && found.Some? &&
      (HasStatus(h.tables.subs[found.value], Trialing) <==> sub.status == "trialing") &&
      (HasStatus(h.tables.subs[found.value], Trialing) || HasStatus(h.tables.subs[found.value], Active)) &&
      (h.tables.subs[found.value].subscriberType == Clinic <==> Truthy(Lookup(meta, "clinic_id"))) &&
      (h.tables.subs[found.value].subscriberType == User ==>
         h.tables.subs[found.value].userId == Lookup(meta, "supabase_user_id") && h.tables.subs[found.value].clinicId.None?) &&
      (h.tables.subs[found.value].subscriberType == Clinic ==>
         h.tables.subs[found.value].userId.None? && h.tables.subs[found.value].clinicId == Lookup(meta, "clinic_id")) &&
      h.tables.subs[found.value].planId == Lookup(meta, "plan_id").value &&
      h.tables.subs[found.value].processor == Some(Stripe) &&
      (forall k :: k in t.subs && k != found.value ==> k in h.tables.subs && h.tables.subs[k] == t.subs[k]) &&
      Lookup(meta, "supabase_user_id").value in h.tables.recomputed &&
      h.tables.audit == t.audit + [AuditEntry(Lookup(meta, "supabase_user_id"), "subscription_created", None)]
  {
    var meta := MetadataOf(s);
    var userId := Lookup(meta, "supabase_user_id");
    var planId := Lookup(meta, "plan_id");
    var interval := if "billing_interval" in meta then meta["billing_interval"] else IntervalName(Monthly);
    var clinic := OrNull(Lookup(meta, "clinic_id"));
    var write := (row: Subscription) => WriteCheckout(row, userId.value, planId.value, interval, clinic, sub);
    var target := UpsertLocates(t, sub.id, write, now);
    var t1 := UpsertByStripeId(t, sub.id, write, now);
    var h := OnCheckoutCompleted(t, s, Retrieved(sub), now);
    assert h.tables.subs == t1.subs;
    LookupKept(t1, h.tables, sub.id);
    StatusNameInjective(Trialing, Active);
  }

  /**
   * A payment on a known subscription makes it active with no grace period, copies the
   * billing period, appends exactly one paid Stripe invoice for it (the row's user and
   * clinic, upper-case currency, tax defaulting to 0) and recomputes the row's user.
   */
  lemma PaymentSucceededOutcome(t: Tables, inv: StripeInvoice, sub: StripeSubscription, id: SubId)
    requires Truthy(inv.subscription) && ByStripeId(t, inv.subscription.value) == Some(id)
    requires HasPeriod(sub)
    ensures var h := OnPaymentSucceeded(t, inv, Retrieved(sub));
      h.thrown.None? && id in h.tables.subs &&
      HasStatus(h.tables.subs[id], Active) && h.tables.subs[id].graceEndsAt.None? &&
      (forall k :: k in t.subs && k != id ==> k in h.tables.subs && h.tables.subs[k] == t.subs[k]) &&
      |h.tables.invoices| == |t.invoices| + 1 && h.tables.invoices[..|t.invoices|] == t.invoices &&
      (var last := h.tables.invoices[|t.invoices|];
        last.subscriptionId == id && last.status == InvoiceStatus.Paid && last.processor == Some(Stripe) &&
        last.processorInvoiceId == Some(inv.id) && last.amountCents == inv.amountPaid &&
        last.currency == Upper(inv.currency) && (forall i :: 0 <= i < |last.currency| ==> !('a' <= last.currency[i] <= 'z')) &&
        last.userId == t.subs[id].userId && last.clinicId == t.subs[id].clinicId &&
        last.periodStart == sub.periodStart && last.periodEnd == sub.periodEnd &&
        last.taxCents == (if inv.tax.Some? then inv.tax.value else 0)) &&
      h.tables.subs[id].periodStart == sub.periodStart && h.tables.subs[id].periodEnd == sub.periodEnd &&
      (Truthy(t.subs[id].userId) ==> h.tables.recomputed == t.recomputed + {t.subs[id].userId.value}) &&
      (!Truthy(t.subs[id].userId) ==> h.tables.recomputed == t.recomputed)
  {
  }

  /** The grace period a failed payment opens: the plan's grace days, or 3 when it has none. */
  lemma PaymentFailedGrace(t: Tables, stripeId: string, id: SubId, now: Timestamp)
    requires Truthy(Some(stripeId)) && ByStripeId(t, stripeId) == Some(id)
    ensures var h := OnPaymentFailed(t, Some(stripeId), now);
      var planId := t.subs[id].planId;
      id in h.tables.subs && HasStatus(h.tables.subs[id], PastDue) &&
      h.tables.subs[id].graceEndsAt == Some(now + GraceDays(t.plans, planId) * DaySeconds) &&
      (planId !in t.plans || t.plans[planId].gracePeriodDays.None? ==> h.tables.subs[id].graceEndsAt == Some(now + 3 * DaySeconds)) &&
      (planId in t.plans && t.plans[planId].gracePeriodDays.Some? ==>
         h.tables.subs[id].graceEndsAt == Some(now + t.plans[planId].gracePeriodDays.value * DaySeconds)) &&
      h.tables.invoices == t.invoices
  {
  }

  /** Stripe's deletion expires the row (it is never `canceled`) and stamps canceled_at. */
  lemma DeletedExpires(t: Tables, stripeId: string, id: SubId, now: Timestamp)
    requires ByStripeId(t, stripeId) == Some(id)
    ensures var h := OnSubscriptionDeleted(t, stripeId, now);
      id in h.tables.subs && HasStatus(h.tables.subs[id], Expired) && !HasStatus(h.tables.subs[id], Canceled) &&
      h.tables.subs[id].canceledAt == Some(now) &&
      h.tables.audit == t.audit + [AuditEntry(None, "subscription_expired", Some(id))]
  {
  }

  /**
   * `customer.subscription.updated` copies Stripe's status string as it is: a Stripe
   * status outside the local six (such as "unpaid") leaves a row no local status describes.
   */
  lemma UpdatedCopiesRawStatus(t: Tables, sub: StripeSubscription, id: SubId)
    requires ByStripeId(t, sub.id) == Some(id) && HasPeriod(sub)
    ensures var h := OnSubscriptionUpdated(t, sub);
      id in h.tables.subs && h.tables.subs[id].status == sub.status &&
      h.tables.subs[id].cancelAtPeriodEnd == sub.cancelAtPeriodEnd &&
      h.tables.subs[id].periodStart == sub.periodStart && h.tables.subs[id].periodEnd == sub.periodEnd &&
      (sub.status == "unpaid" ==> !WellTyped(h.tables.subs[id]))
  {
  }

  /** The value of the tables after `Post` of one envelope with no signature problem. */
  function Deliver(t: Tables, env: StripeEnvelope, retrieve: Retrieval, faults: LogFaults, now: Timestamp): Delivery {
    StripePost(t, Some("sig"), Some(env), retrieve, faults, now)
  }

  /**
   * Idempotency: once an event has been handled and marked processed, its redelivery
   * is answered "skipped" and changes nothing.
   */
  lemma RedeliverySkipped(t: Tables, env: StripeEnvelope, retrieve: Retrieval, now: Timestamp,
                          retrieve2: Retrieval, faults2: LogFaults, now2: Timestamp)
    requires !AlreadyProcessed(t.events, EventKey(Stripe, env.id))
    requires HandleStripe(Begun(t, EventKey(Stripe, env.id), EventType(env.event), NoFaults), env.event, retrieve, now).thrown.None?
    ensures var d := Deliver(t, env, retrieve, NoFaults, now);
      d.response == Acknowledged && Deliver(d.tables, env, retrieve2, faults2, now2) == Delivery(d.tables, SkippedDuplicate)
  {
    var key := EventKey(Stripe, env.id);
    var began := Begun(t, key, EventType(env.event), NoFaults);
    SecondDeliverySkipped(t, key, EventType(env.event), HandleStripe(began, env.event, retrieve, now), now,
                          EventType(env.event), HandleStripe(began, env.event, retrieve2, now2), faults2, now2);
  }

  /** One delivery of a payment event for a known subscription, with the log upsert landing. */
  lemma DeliverPayment(t: Tables, env: StripeEnvelope, sub: StripeSubscription, id: SubId, faults: LogFaults, now: Timestamp)
    requires env.event.InvoicePaymentSucceeded?
    requires Truthy(env.event.invoice.subscription) && ByStripeId(t, env.event.invoice.subscription.value) == Some(id)
    requires HasPeriod(sub)
    requires !AlreadyProcessed(t.events, EventKey(Stripe, env.id))
    requires !faults.recordLost
    ensures var d := Deliver(t, env, Retrieved(sub), faults, now);
      d.response == Acknowledged && SameStripeIds(t, d.tables) &&
      |d.tables.invoices| == |t.invoices| + 1 && d.tables.invoices[..|t.invoices|] == t.invoices &&
      d.tables.invoices[|t.invoices|].processorInvoiceId == Some(env.event.invoice.id) &&
      (faults.markLost ==> !AlreadyProcessed(d.tables.events, EventKey(Stripe, env.id)))
  {
    var key := EventKey(Stripe, env.id);
    var inv := env.event.invoice;
    var began := Begun(t, key, EventType(env.event), faults);
    LookupKept(t, began, inv.subscription.value);
    PaymentSucceededOutcome(began, inv, sub, id);
    var h := HandleStripe(began, env.event, Retrieved(sub), now);
    assert h == OnPaymentSucceeded(began, inv, Retrieved(sub));
    if faults.markLost {
      LostMarkIsRetried(t, key, EventType(env.event), h, now);
    }
  }

  /**
   * No deduplication of invoices: when the `processed` mark of a payment event is lost,
   * Stripe's retry runs the handler again and a second paid invoice is appended.
   */
  lemma RetriedPaymentDuplicatesInvoice(t: Tables, env: StripeEnvelope, sub: StripeSubscription, id: SubId, now: Timestamp, now2: Timestamp)
    requires env.event.InvoicePaymentSucceeded?
    requires Truthy(env.event.invoice.subscription) && ByStripeId(t, env.event.invoice.subscription.value) == Some(id)
    requires HasPeriod(sub)
    requires !AlreadyProcessed(t.events, EventKey(Stripe, env.id))
    ensures var d1 := Deliver(t, env, Retrieved(sub), LogFaults(false, true), now);
      var d2 := Deliver(d1.tables, env, Retrieved(sub), NoFaults, now2);
      d1.response == Acknowledged && d2.response == Acknowledged &&
      |d2.tables.invoices| == |t.invoices| + 2 &&
      d2.tables.invoices[|t.invoices|].processorInvoiceId == Some(env.event.invoice.id) &&
      d2.tables.invoices[|t.invoices| + 1].processorInvoiceId == Some(env.event.invoice.id)
  {
    DeliverPayment(t, env, sub, id, LogFaults(false, true), now);
    var d1 := Deliver(t, env, Retrieved(sub), LogFaults(false, true), now);
    LookupKept(t, d1.tables, env.event.invoice.subscription.value);
    DeliverPayment(d1.tables, env, sub, id, NoFaults, now2);
    var d2 := Deliver(d1.tables, env, Retrieved(sub), NoFaults, now2);
    assert d2.tables.invoices[..|d1.tables.invoices|] == d1.tables.invoices;
  }

  /**
   * The two payment events do not commute: the row ends in the status of whichever
   * event arrived last. A failure followed by a payment leaves it active...
   */
  lemma FailedThenPaidIsActive(t: Tables, inv: StripeInvoice, sub: StripeSubscription, id: SubId, now: Timestamp)
    requires Truthy(inv.subscription) && ByStripeId(t, inv.subscription.value) == Some(id)
    requires HasPeriod(sub)
    ensures var after := OnPaymentSucceeded(OnPaymentFailed(t, inv.subscription, now).tables, inv, Retrieved(sub)).tables;
      id in after.subs && HasStatus(after.subs[id], Active) && after.subs[id].graceEndsAt.None?
  {
    var f := OnPaymentFailed(t, inv.subscription, now).tables;
    LookupKept(t, f, inv.subscription.value);
    PaymentSucceededOutcome(f, inv, sub, id);
  }

  /** ...and a payment followed by a failure leaves it past due with a grace period. */
  lemma PaidThenFailedIsPastDue(t: Tables, inv: StripeInvoice, sub: StripeSubscription, id: SubId, now: Timestamp)
    requires Truthy(inv.subscription) && ByStripeId(t, inv.subscription.value) == Some(id)
    requires HasPeriod(sub)
    ensures var after := OnPaymentFailed(OnPaymentSucceeded(t, inv, Retrieved(sub)).tables, inv.subscription, now).tables;
      id in after.subs && HasStatus(after.subs[id], PastDue) && after.subs[id].graceEndsAt.Some?
  {
    var p := OnPaymentSucceeded(t, inv, Retrieved(sub)).tables;
    LookupKept(t, p, inv.subscription.value);
    PaymentFailedGrace(p, inv.subscription.value, id, now);
  }
}
