/**
 * The Conekta webhook (src/app/api/webhooks/conekta/route.ts): the HMAC signature check
 * that an unset secret switches off, the JSON guard, the shared idempotency gate and log
 * transitions, and the four event handlers.
 *
 * The MAC is a parameter `mac(secret, payload)` (hex HMAC-SHA256 in the source); the JSON
 * parser's outcome is a parameter (None when `JSON.parse` threw); the one store write the
 * handler inspects, the insert of a new subscription, may be lost (`insertLost`).
 */
module ConektaWebhook {
  import opened Database
  import opened Store
  import opened Text
  import opened WebhookLog
  import StripeWebhook

  datatype Charge = Charge(amount: int, currency: string)

  /** The order metadata the handler reads; an absent or empty subscription id is None. */
  datatype OrderMeta = OrderMeta(userId: Option<string>, planId: Option<string>, subscriptionId: Option<SubId>)

  /**
   * An order. `customerId` is `customer_info.customer_id`, None when `customer_info` is
   * missing; `charges` is `charges.data`, empty when missing.
   */
  datatype ConektaOrder = ConektaOrder(id: string, customerId: Option<string>, metadata: OrderMeta, charges: seq<Charge>)

  datatype ConektaSubscription = ConektaSubscription(id: string, metadataUserId: Option<string>, periodStart: Option<int>, periodEnd: Option<int>)

  /** The event types the switch handles. */
  const HandledTypes: set<string> := {"order.paid", "subscription.paid", "subscription.payment_failed", "subscription.canceled"}

  /** The type of an event the switch ignores: any name but a handled one. */
  type OtherType = t: string | t !in HandledTypes witness ""

  datatype ConektaEvent =
    | OrderPaid(order: ConektaOrder)
    | SubscriptionPaid(paid: ConektaSubscription)
    | SubscriptionPaymentFailed(failedId: string)
    | SubscriptionCanceled(canceledId: string)
    | OtherConektaEvent(otherType: OtherType)

  datatype ConektaEnvelope = ConektaEnvelope(id: string, event: ConektaEvent)

  /** The logged `type`: a handled name exactly for the events the switch handles. */
  function EventType(e: ConektaEvent): (r: string)
    ensures r in HandledTypes <==> !e.OtherConektaEvent?
  {
    match e
    case OrderPaid(_) => "order.paid"
    case SubscriptionPaid(_) => "subscription.paid"
    case SubscriptionPaymentFailed(_) => "subscription.payment_failed"
    case SubscriptionCanceled(_) => "subscription.canceled"
    case OtherConektaEvent(t) => t
  }

  const InvalidTimeValue: string := "Invalid time value"
  const NoCustomerInfo: string := "Cannot read properties of undefined (reading 'customer_id')"

  /** `verifyConektaSignature`: the hex MAC of the raw body must equal the header. */
  predicate VerifySignature(mac: (string, string) -> string, payload: string, signature: string, secret: string) {
    mac(secret, payload) == signature
  }

  /** The guard `secret && !verify(...)` lets a request through. */
  predicate SignatureAccepted(mac: (string, string) -> string, payload: string, signature: Option<string>, secret: Option<string>) {
    var header := if signature.Some? then signature.value else "";
    !Truthy(secret) || VerifySignature(mac, payload, header, secret.value)
  }

  predicate HasConektaId(row: Subscription, id: string) {
    row.conektaSubId == Some(id)
  }

  /** The row filter `.eq('conekta_subscription_id', id)`. */
  function ConektaIdIs(id: string): Subscription -> bool {
    (row: Subscription) => HasConektaId(row, id)
  }

  /** `.eq('conekta_subscription_id', id).single()`. */
  function ByConektaId(t: Tables, id: string): (r: Option<SubId>)
    ensures r.Some? ==> r.value in t.subs && HasConektaId(t.subs[r.value], id)
  {
    SingleMatch(t.subs, ConektaIdIs(id))
  }

  /** The invoice an order's first charge produces; unnamed columns keep their defaults. */
  function OrderInvoice(subId: SubId, userId: UserId, order: ConektaOrder, charge: Charge): Invoice {
    Invoice(subId, Some(userId), None, charge.amount, Upper(charge.currency), 0, InvoiceStatus.Paid,
            Some(Conekta), Some(order.id), None, None, NoCfdi)
  }

  /** Append the first charge's invoice, when the order has a charge. */
  function InvoiceFirstCharge(t: Tables, subId: SubId, userId: UserId, order: ConektaOrder): (r: Tables)
    ensures |order.charges| == 0 ==> r == t
    ensures |order.charges| > 0 ==> r == AppendInvoice(t, OrderInvoice(subId, userId, order, order.charges[0]))
  {
    if |order.charges| > 0 then AppendInvoice(t, OrderInvoice(subId, userId, order, order.charges[0])) else t
  }

  /** `trial_ends_at` of a new row: set when the plan's trial_days is truthy. */
  function TrialEnd(plans: map<string, Plan>, planId: string, now: Timestamp): (r: Option<Timestamp>)
    ensures r.Some? <==> planId in plans && plans[planId].trialDays.Some? && plans[planId].trialDays.value != 0
  {
    if planId in plans && plans[planId].trialDays.Some? && plans[planId].trialDays.value != 0
    then Some(now + plans[planId].trialDays.value * DaySeconds)
    else None
  }

  /** The row an order without a subscription id creates: a monthly Conekta user subscription. */
  function OrderRow(userId: UserId, planId: string, customerId: string, trialEnd: Option<Timestamp>,
                    now: Timestamp, monthLater: Timestamp): Subscription {
    Subscription(User, Some(userId), None, planId, StatusName(Active), IntervalName(Monthly), trialEnd, None,
                 Some(now), Some(monthLater), false, None, Some(Conekta), None, None, None, Some(customerId), now)
  }

  // ---------------------------------------------------------------------------
  // The handlers, as functions of the tables.

  /**
   * What every handler leaves alone: the event log and the audit trail; fresh ids stay
   * fresh, and invoices only grow, by at most one.
   */
  predicate Confined(t: Tables, r: Tables) {
    r.events == t.events && r.audit == t.audit && (FreshIds(t) ==> FreshIds(r)) &&
    t.invoices <= r.invoices && |r.invoices| <= |t.invoices| + 1
  }

  function OnOrderPaid(t: Tables, order: ConektaOrder, insertLost: bool, now: Timestamp, monthLater: Timestamp): (h: Handled)
    ensures !Truthy(order.metadata.userId) || !Truthy(order.metadata.planId) ==> h == Handled(t, None)
    ensures h.thrown.Some? ==> h.tables == t
    ensures Confined(t, h.tables)
  {
    var meta := order.metadata;
    if !Truthy(meta.userId) || !Truthy(meta.planId) then Handled(t, None)
    else
      var userId := meta.userId.value;
      match meta.subscriptionId
      case Some(subId) =>
        var t1 := UpdateSub(t, subId, (r: Subscription) => r.(status := StatusName(Active), graceEndsAt := None));
        Handled(Recompute(InvoiceFirstCharge(t1, subId, userId, order), userId), None)
      case None =>
        if order.customerId.None? then Handled(t, Some(NoCustomerInfo))
        else
          var row := OrderRow(userId, meta.planId.value, order.customerId.value, TrialEnd(t.plans, meta.planId.value, now), now, monthLater);
          var t1 := if insertLost then t else InsertSub(t, row);
          var t2 := if insertLost then t1 else InvoiceFirstCharge(t1, t.nextId, userId, order);
          Handled(Recompute(t2, userId), None)
  }

  /** The user `subscription.paid` recomputes: `userId ?? row.user_id`, when `userId || row.user_id`. */
  function PaidRecomputeTarget(metaUser: Option<string>, rowUser: Option<UserId>): (r: Option<UserId>)
    ensures r.Some? <==> Truthy(metaUser) || Truthy(rowUser)
    ensures Truthy(metaUser) ==> r == metaUser
    ensures !Truthy(metaUser) && Truthy(rowUser) ==> r == (if metaUser.Some? then metaUser else rowUser)
  {
    if Truthy(metaUser) || Truthy(rowUser) then (if metaUser.Some? then metaUser else rowUser) else None
  }

  function OnSubscriptionPaid(t: Tables, sub: ConektaSubscription): (h: Handled)
    ensures ByConektaId(t, sub.id).None? ==> h == Handled(t, None)
    ensures h.thrown.Some? ==> h.tables == t
    ensures Confined(t, h.tables)
  {
    match ByConektaId(t, sub.id)
    case None => Handled(t, None)
    case Some(id) =>
      if sub.periodStart.None? || sub.periodEnd.None? then Handled(t, Some(InvalidTimeValue))
      else
        var target := PaidRecomputeTarget(sub.metadataUserId, t.subs[id].userId);
        var t1 := UpdateSub(t, id, (r: Subscription) => r.(status := StatusName(Active), graceEndsAt := None,
                                                           periodStart := sub.periodStart, periodEnd := sub.periodEnd));
        Handled(if target.Some? then Recompute(t1, target.value) else t1, None)
  }

  function OnPaymentFailed(t: Tables, conektaId: string, now: Timestamp): (r: Tables)
    ensures ByConektaId(t, conektaId).None? ==> r == t
    ensures Confined(t, r)
  {
    match ByConektaId(t, conektaId)
    case None => t
    case Some(id) =>
      var row := t.subs[id];
      var graceEnds := now + GraceDays(t.plans, row.planId) * DaySeconds;
      RecomputeIfUser(UpdateSub(t, id, (r: Subscription) => r.(status := StatusName(PastDue), graceEndsAt := Some(graceEnds))), row.userId)
  }

  function OnCanceled(t: Tables, conektaId: string, now: Timestamp): (r: Tables)
    ensures ByConektaId(t, conektaId).None? ==> r == t
    ensures Confined(t, r)
  {
    match ByConektaId(t, conektaId)
    case None => t
    case Some(id) =>
      RecomputeIfUser(UpdateSub(t, id, (r: Subscription) => r.(status := StatusName(Canceled), canceledAt := Some(now))), t.subs[id].userId)
  }

  /** `handleConektaEvent`. */
  function HandleConekta(t: Tables, e: ConektaEvent, insertLost: bool, now: Timestamp, monthLater: Timestamp): (h: Handled)
    ensures KeepsLog(h, t)
    ensures Confined(t, h.tables)
    ensures h.thrown.Some? ==> h.tables == t
    ensures e.OtherConektaEvent? ==> h == Handled(t, None)
  {
    match e
    case OrderPaid(order) => OnOrderPaid(t, order, insertLost, now, monthLater)
    case SubscriptionPaid(sub) => OnSubscriptionPaid(t, sub)
    case SubscriptionPaymentFailed(id) => Handled(OnPaymentFailed(t, id, now), None)
    case SubscriptionCanceled(id) => Handled(OnCanceled(t, id, now), None)
    case OtherConektaEvent(_) => Handled(t, None)
  }

  /** `POST`: the signature and JSON guards, then the gate and log around `handleConektaEvent`. */
  function ConektaPost(t: Tables, rawBody: string, signature: Option<string>, secret: Option<string>,
                       mac: (string, string) -> string, parsed: Option<ConektaEnvelope>,
                       insertLost: bool, faults: LogFaults, now: Timestamp, monthLater: Timestamp): (d: Delivery)
    ensures !SignatureAccepted(mac, rawBody, signature, secret) ==> d == Delivery(t, BadRequest("Invalid signature"))
    ensures SignatureAccepted(mac, rawBody, signature, secret) && parsed.None? ==> d == Delivery(t, BadRequest("Invalid JSON"))
    ensures parsed.Some? && AlreadyProcessed(t.events, EventKey(Conekta, parsed.value.id)) ==> d.tables == t
  {
    if !SignatureAccepted(mac, rawBody, signature, secret) then Delivery(t, BadRequest("Invalid signature"))
    else if parsed.None? then Delivery(t, BadRequest("Invalid JSON"))
    else
      var env := parsed.value;
      var key := EventKey(Conekta, env.id);
      var began := Begun(t, key, EventType(env.event), faults);
      Dispatch(t, key, EventType(env.event), HandleConekta(began, env.event, insertLost, now, monthLater), faults, now)
  }

  // ---------------------------------------------------------------------------
  // The route as it runs.

  method ApplyOrderPaid(st: Store, order: ConektaOrder, insertLost: bool, now: Timestamp, monthLater: Timestamp)
    returns (thrown: Option<string>)
    requires st.Valid()
    modifies st
    ensures st.Valid()
    ensures Handled(st.Snapshot(), thrown) == OnOrderPaid(old(st.Snapshot()), order, insertLost, now, monthLater)
  {
    thrown := None;
    var meta := order.metadata;
    if !Truthy(meta.userId) || !Truthy(meta.planId) { return; }
    var userId := meta.userId.value;
    if meta.subscriptionId.Some? {
      var subId := meta.subscriptionId.value;
      st.UpdateSubscription(subId, (r: Subscription) => r.(status := StatusName(Active), graceEndsAt := None));
      if |order.charges| > 0 {
        st.InsertInvoice(OrderInvoice(subId, userId, order, order.charges[0]));
      }
    } else {
      if order.customerId.None? { return Some(NoCustomerInfo); }
      var trialEnd := TrialEnd(st.plans, meta.planId.value, now);
      var row := OrderRow(userId, meta.planId.value, order.customerId.value, trialEnd, now, monthLater);
      if !insertLost {
        var subId := st.InsertSubscription(row);
        if |order.charges| > 0 {
          st.InsertInvoice(OrderInvoice(subId, userId, order, order.charges[0]));
        }
      }
    }
    st.RecomputeAccess(userId);
  }

  method ApplySubscriptionPaid(st: Store, sub: ConektaSubscription) returns (thrown: Option<string>)
    requires st.Valid()
    modifies st
    ensures st.Valid()
    ensures Handled(st.Snapshot(), thrown) == OnSubscriptionPaid(old(st.Snapshot()), sub)
  {
    thrown := None;
    var found := SingleMatch(st.subs, ConektaIdIs(sub.id));
    if found.None? { return; }
    var id := found.value;
    if sub.periodStart.None? || sub.periodEnd.None? { return Some(InvalidTimeValue); }
    var target := PaidRecomputeTarget(sub.metadataUserId, st.subs[id].userId);
    st.UpdateSubscription(id, (r: Subscription) => r.(status := StatusName(Active), graceEndsAt := None,
                                                     periodStart := sub.periodStart, periodEnd := sub.periodEnd));
    if target.Some? { st.RecomputeAccess(target.value); }
  }

  method ApplyPaymentFailed(st: Store, conektaId: string, now: Timestamp)
    requires st.Valid()
    modifies st
    ensures st.Valid()
    ensures st.Snapshot() == OnPaymentFailed(old(st.Snapshot()), conektaId, now)
  {
    var found := SingleMatch(st.subs, ConektaIdIs(conektaId));
    if found.None? { return; }
    var id := found.value;
    var row := st.subs[id];
    var graceEnds := now + GraceDays(st.plans, row.planId) * DaySeconds;
    st.UpdateSubscription(id, (r: Subscription) => r.(status := StatusName(PastDue), graceEndsAt := Some(graceEnds)));
    if Truthy(row.userId) { st.RecomputeAccess(row.userId.value); }
  }

  method ApplyCanceled(st: Store, conektaId: string, now: Timestamp)
    requires st.Valid()
    modifies st
    ensures st.Valid()
    ensures st.Snapshot() == OnCanceled(old(st.Snapshot()), conektaId, now)
  {
    var found := SingleMatch(st.subs, ConektaIdIs(conektaId));
    if found.None? { return; }
    var id := found.value;
    var row := st.subs[id];
    st.UpdateSubscription(id, (r: Subscription) => r.(status := StatusName(Canceled), canceledAt := Some(now)));
    if Truthy(row.userId) { st.RecomputeAccess(row.userId.value); }
  }

  method HandleConektaEvent(st: Store, e: ConektaEvent, insertLost: bool, now: Timestamp, monthLater: Timestamp)
    returns (thrown: Option<string>)
    requires st.Valid()
    modifies st
    ensures st.Valid()
    ensures Handled(st.Snapshot(), thrown) == HandleConekta(old(st.Snapshot()), e, insertLost, now, monthLater)
  {
    thrown := None;
    match e {
      case OrderPaid(order) => thrown := ApplyOrderPaid(st, order, insertLost, now, monthLater);
      case SubscriptionPaid(sub) => thrown := ApplySubscriptionPaid(st, sub);
      case SubscriptionPaymentFailed(id) => ApplyPaymentFailed(st, id, now);
      case SubscriptionCanceled(id) => ApplyCanceled(st, id, now);
      case OtherConektaEvent(_) =>
    }
  }

  method Post(st: Store, rawBody: string, signature: Option<string>, secret: Option<string>,
              mac: (string, string) -> string, parsed: Option<ConektaEnvelope>,
              insertLost: bool, faults: LogFaults, now: Timestamp, monthLater: Timestamp) returns (response: WebhookResponse)
    requires st.Valid()
    modifies st
    ensures st.Valid()
    ensures Delivery(st.Snapshot(), response) ==
            ConektaPost(old(st.Snapshot()), rawBody, signature, secret, mac, parsed, insertLost, faults, now, monthLater)
  {
    var header := if signature.Some? then signature.value else "";
    if Truthy(secret) && !VerifySignature(mac, rawBody, header, secret.value) {
      return BadRequest("Invalid signature");
    }
    if parsed.None? { return BadRequest("Invalid JSON"); }
    response := DispatchEvent(st, parsed.value, insertLost, faults, now, monthLater);
  }

  /** The gate and log around `handleConektaEvent` for an authentic, parsed event. */
  method DispatchEvent(st: Store, env: ConektaEnvelope, insertLost: bool, faults: LogFaults, now: Timestamp,
                       monthLater: Timestamp) returns (response: WebhookResponse)
    requires st.Valid()
    modifies st
    ensures st.Valid()
    ensures var key := EventKey(Conekta, env.id);
      Delivery(st.Snapshot(), response) ==
      Dispatch(old(st.Snapshot()), key, EventType(env.event),
               HandleConekta(Begun(old(st.Snapshot()), key, EventType(env.event), faults), env.event, insertLost, now, monthLater),
               faults, now)
  {
    var key := EventKey(Conekta, env.id);
    if key in st.events && st.events[key].status == Processed { return SkippedDuplicate; }
    if !faults.recordLost {
      st.events := BeginProcessing(st.events, key, EventType(env.event));
    }
    var thrown := HandleConektaEvent(st, env.event, insertLost, now, monthLater);
    var marks := !faults.recordLost && !faults.markLost;
    if thrown.None? {
      if marks { st.events := MarkProcessed(st.events, key, now); }
      response := Acknowledged;
    } else {
      if marks { st.events := MarkFailed(st.events, key, thrown.value); }
      response := ServerError(thrown.value);
    }
  }

  // ---------------------------------------------------------------------------
  // Properties.

  /**
   * With a secret configured, a request passes iff the header equals the MAC of the raw
   * body; with the secret unset or empty, every request passes, whatever its header.
   */
  lemma SignatureGate(mac: (string, string) -> string, payload: string, signature: Option<string>, secret: Option<string>)
    ensures Truthy(secret) ==>
      (SignatureAccepted(mac, payload, signature, secret) <==>
         mac(secret.value, payload) == (if signature.Some? then signature.value else ""))
    ensures !Truthy(secret) ==> SignatureAccepted(mac, payload, signature, secret)
  {
  }

  /**
   * A paid order naming an existing subscription activates it and clears its grace
   * period, appends one paid Conekta invoice exactly when the order has a charge, and
   * recomputes the buyer's access. No row is created.
   */
  lemma OrderPaidExistingOutcome(t: Tables, order: ConektaOrder, subId: SubId, insertLost: bool, now: Timestamp, monthLater: Timestamp)
    requires Truthy(order.metadata.userId) && Truthy(order.metadata.planId)
    requires order.metadata.subscriptionId == Some(subId) && subId in t.subs
    ensures var h := OnOrderPaid(t, order, insertLost, now, monthLater);
      h.thrown.None? && h.tables.subs.Keys == t.subs.Keys &&
      HasStatus(h.tables.subs[subId], Active) && h.tables.subs[subId].graceEndsAt.None? &&
      (forall k :: k in t.subs && k != subId ==> h.tables.subs[k] == t.subs[k]) &&
      (|h.tables.invoices| == |t.invoices| + 1 <==> |order.charges| > 0) &&
      t.invoices <= h.tables.invoices &&
      (|order.charges| > 0 ==> h.tables.invoices[|t.invoices|] == OrderInvoice(subId, order.metadata.userId.value, order, order.charges[0])) &&
      order.metadata.userId.value in h.tables.recomputed
  {
  }

  /**
   * A paid order without a subscription id inserts one active monthly Conekta user
   * subscription under a fresh id, ending one month after now, with a trial end exactly
   * when the plan's trial_days is truthy; its invoice is appended when the order has a
   * charge. When the insert is lost neither the row nor the invoice appears.
   */
  lemma OrderPaidNewOutcome(t: Tables, order: ConektaOrder, insertLost: bool, now: Timestamp, monthLater: Timestamp)
    requires FreshIds(t)
    requires Truthy(order.metadata.userId) && Truthy(order.metadata.planId)
    requires order.metadata.subscriptionId.None? && order.customerId.Some?
    ensures var h := OnOrderPaid(t, order, insertLost, now, monthLater);
      var planId := order.metadata.planId.value;
      h.thrown.None? && order.metadata.userId.value in h.tables.recomputed &&
      (insertLost ==> h.tables.subs == t.subs && h.tables.invoices == t.invoices) &&
      (!insertLost ==>
        t.nextId !in t.subs && h.tables.subs == t.subs[t.nextId := h.tables.subs[t.nextId]] &&
        (var row := h.tables.subs[t.nextId];
          row.subscriberType == User && row.userId == order.metadata.userId && row.planId == planId &&
          HasStatus(row, Active) && row.billingInterval == IntervalName(Monthly) && WellTyped(row) &&
          row.processor == Some(Conekta) && row.conektaCustomerId == order.customerId &&
          row.periodStart == Some(now) && row.periodEnd == Some(monthLater) &&
          (row.trialEndsAt.Some? <==> planId in t.plans && t.plans[planId].trialDays.Some? && t.plans[planId].trialDays.value != 0)) &&
        (|h.tables.invoices| == |t.invoices| + 1 <==> |order.charges| > 0) &&
        (|order.charges| > 0 ==> h.tables.invoices[|t.invoices|].subscriptionId == t.nextId))
  {
  }

  /**
   * `subscription.paid` uses `??` where it tested with `||`: a metadata user id that is
   * the empty string passes the test on the strength of the row's user, yet the
   * recompute is called for "" and not for the row's user.
   */
  lemma PaidRecomputesEmptyMetadataUser(t: Tables, sub: ConektaSubscription, id: SubId)
    requires ByConektaId(t, sub.id) == Some(id)
    requires sub.periodStart.Some? && sub.periodEnd.Some?
    requires sub.metadataUserId == Some("") && Truthy(t.subs[id].userId)
    requires t.subs[id].userId.value !in t.recomputed
    ensures var h := OnSubscriptionPaid(t, sub);
      "" in h.tables.recomputed && t.subs[id].userId.value !in h.tables.recomputed &&
      HasStatus(h.tables.subs[id], Active)
  {
  }

  /** Known-subscription outcomes of the three subscription events. */
  lemma SubscriptionEventOutcomes(t: Tables, conektaId: string, id: SubId, sub: ConektaSubscription, now: Timestamp)
    requires ByConektaId(t, conektaId) == Some(id)
    requires sub.id == conektaId && sub.periodStart.Some? && sub.periodEnd.Some?
    ensures var paid := OnSubscriptionPaid(t, sub).tables.subs[id];
      HasStatus(paid, Active) && paid.graceEndsAt.None? && paid.periodStart == sub.periodStart && paid.periodEnd == sub.periodEnd
    ensures var failed := OnPaymentFailed(t, conektaId, now).subs[id];
      HasStatus(failed, PastDue) && failed.graceEndsAt == Some(now + GraceDays(t.plans, t.subs[id].planId) * DaySeconds)
    ensures var canceled := OnCanceled(t, conektaId, now).subs[id];
      HasStatus(canceled, Canceled) && canceled.canceledAt == Some(now)
  {
  }

  /**
   * The processors disagree on the end of a subscription: Stripe's deletion leaves the
   * row expired, Conekta's cancellation leaves it canceled.
   */
  lemma ProcessorsEndDifferently(t: Tables, stripeId: string, conektaId: string, id: SubId, now: Timestamp)
    requires StripeWebhook.ByStripeId(t, stripeId) == Some(id)
    requires ByConektaId(t, conektaId) == Some(id)
    ensures var viaStripe := StripeWebhook.OnSubscriptionDeleted(t, stripeId, now).tables.subs[id];
      var viaConekta := OnCanceled(t, conektaId, now).subs[id];
      HasStatus(viaStripe, Expired) && HasStatus(viaConekta, Canceled) && viaStripe.status != viaConekta.status
  {
    StripeWebhook.DeletedExpires(t, stripeId, id, now);
    StatusNameInjective(Expired, Canceled);
  }

  /** The value of the tables after `Post` of one authentic, parsed envelope. */
  function Deliver(t: Tables, env: ConektaEnvelope, insertLost: bool, faults: LogFaults, now: Timestamp, monthLater: Timestamp): Delivery {
    ConektaPost(t, "", None, None, (secret: string, payload: string) => "", Some(env), insertLost, faults, now, monthLater)
  }

  /** Idempotency: a handled and marked Conekta event is skipped on redelivery. */
  lemma RedeliverySkipped(t: Tables, env: ConektaEnvelope, insertLost: bool, now: Timestamp, monthLater: Timestamp,
                          insertLost2: bool, faults2: LogFaults, now2: Timestamp, monthLater2: Timestamp)
    requires !AlreadyProcessed(t.events, EventKey(Conekta, env.id))
    requires HandleConekta(Begun(t, EventKey(Conekta, env.id), EventType(env.event), NoFaults), env.event, insertLost, now, monthLater).thrown.None?
    ensures var d := Deliver(t, env, insertLost, NoFaults, now, monthLater);
      d.response == Acknowledged &&
      Deliver(d.tables, env, insertLost2, faults2, now2, monthLater2) == Delivery(d.tables, SkippedDuplicate)
  {
    var key := EventKey(Conekta, env.id);
    var began := Begun(t, key, EventType(env.event), NoFaults);
    SecondDeliverySkipped(t, key, EventType(env.event), HandleConekta(began, env.event, insertLost, now, monthLater), now,
                          EventType(env.event), HandleConekta(began, env.event, insertLost2, now2, monthLater2), faults2, now2);
  }
}
