/**
 * The reconciliation sweep (src/app/api/reconcile/route.ts), run by a cron job: the
 * shared-secret guard, then three passes over the subscriptions table with counters.
 *
 *   1. every Stripe row in active/trialing/past_due with a Stripe id is compared with
 *      Stripe's status (through `MapStripeStatus`) and rewritten when they differ; a
 *      failure on one row counts as an error and the pass goes on;
 *   2. every past_due row whose grace period has ended is expired;
 *   3. every self-managed trial (no Stripe id) that has ended is expired, unless its plan
 *      is the free plan.
 *
 * Stripe's answers are a map from Stripe subscription id to the retrieved object; an id
 * missing from the map is one whose retrieval threw.
 */
module Reconcile {
  import opened Database
  import opened Store
  import opened StripeWebhook

  /** `mapStripeStatus`. */
  function MapStripeStatus(stripeStatus: string): (r: SubscriptionStatus)
    ensures stripeStatus == "unpaid" || stripeStatus == "paused" ==> r == PastDue
    ensures stripeStatus == "incomplete_expired" ==> r == Expired
    ensures stripeStatus !in KnownStripeStatuses() ==> r == Expired
  {
    if stripeStatus == "active" then Active
    else if stripeStatus == "trialing" then Trialing
    else if stripeStatus == "past_due" then PastDue
    else if stripeStatus == "canceled" then Canceled
    else if stripeStatus == "unpaid" then PastDue
    else if stripeStatus == "incomplete" then Incomplete
    else if stripeStatus == "incomplete_expired" then Expired
    else if stripeStatus == "paused" then PastDue
    else Expired
  }

  /** The Stripe statuses the switch names. */
  function KnownStripeStatuses(): set<string> {
    {"active", "trialing", "past_due", "canceled", "unpaid", "incomplete", "incomplete_expired", "paused"}
  }

  /** The local statuses that share a name with a Stripe status come back unchanged... */
  lemma MapStripeStatusKeepsLocalNames(s: SubscriptionStatus)
    requires s != Expired
    ensures MapStripeStatus(StatusName(s)) == s
  {
  }

  /** ...and `expired`, which Stripe does not use, falls to the default, which is also expired. */
  lemma MapStripeStatusOfExpired()
    ensures StatusName(Expired) !in KnownStripeStatuses() && MapStripeStatus(StatusName(Expired)) == Expired
  {
  }

  /** The header the guard demands: a template literal turns an unset secret into "undefined". */
  function ExpectedAuthorization(cronSecret: Option<string>): string {
    "Bearer " + (if cronSecret.Some? then cronSecret.value else "undefined")
  }

  predicate Authorized(header: Option<string>, cronSecret: Option<string>) {
    header == Some(ExpectedAuthorization(cronSecret))
  }

  /** With CRON_SECRET unset, the header "Bearer undefined" is accepted. */
  lemma UnsetSecretAcceptsUndefined()
    ensures Authorized(Some("Bearer undefined"), None)
  {
    assert ExpectedAuthorization(None) == "Bearer " + "undefined" == "Bearer undefined";
  }

  // ---------------------------------------------------------------------------
  // Row predicates of the three steps.

  predicate InStripeSelection(row: Subscription) {
    row.processor == Some(Stripe) && row.stripeSubId.Some? &&
    (HasStatus(row, Active) || HasStatus(row, Trialing) || HasStatus(row, PastDue))
  }

  /** The status Stripe's answer maps to differs from the stored one. */
  predicate Drifted(row: Subscription, answers: map<string, StripeSubscription>)
    requires row.stripeSubId.Some? && row.stripeSubId.value in answers
  {
    StatusName(MapStripeStatus(answers[row.stripeSubId.value].status)) != row.status
  }

  /** Step 1 rewrites the row: retrieval succeeded, the status drifted and the periods are dates. */
  predicate Rewrites(row: Subscription, answers: map<string, StripeSubscription>) {
    InStripeSelection(row) && row.stripeSubId.value in answers && Drifted(row, answers) &&
    HasPeriod(answers[row.stripeSubId.value])
  }

  /** Step 1's visit throws: retrieval threw, or a drifted row's period is not a date. */
  predicate Errs(row: Subscription, answers: map<string, StripeSubscription>) {
    InStripeSelection(row) &&
    (row.stripeSubId.value !in answers || (Drifted(row, answers) && !HasPeriod(answers[row.stripeSubId.value])))
  }

  /** The row as step 1 writes it: Stripe's status, periods and cancel flag. */
  function Resynced(row: Subscription, answers: map<string, StripeSubscription>): Subscription {
    if row.stripeSubId.Some? && row.stripeSubId.value in answers then
      var s := answers[row.stripeSubId.value];
      row.(status := StatusName(MapStripeStatus(s.status)), periodStart := s.periodStart, periodEnd := s.periodEnd,
           cancelAtPeriodEnd := s.cancelAtPeriodEnd)
    else row
  }

  /** Step 2's query: past_due with a grace end before now (a null grace end never compares). */
  predicate GraceElapsed(row: Subscription, now: Timestamp) {
    HasStatus(row, PastDue) && row.graceEndsAt.Some? && row.graceEndsAt.value < now
  }

  /** Step 3's query: a self-managed trial whose end is before now. */
  predicate TrialEnded(row: Subscription, now: Timestamp) {
    HasStatus(row, Trialing) && row.trialEndsAt.Some? && row.trialEndsAt.value < now && row.stripeSubId.None?
  }

  /** `plan?.billing_interval === 'free'`: a missing plan is not free. */
  predicate FreePlan(plans: map<string, Plan>, planId: string) {
    planId in plans && plans[planId].billingInterval == Free
  }

  function Expire(row: Subscription): Subscription {
    row.(status := StatusName(SubscriptionStatus.Expired))
  }

  // ---------------------------------------------------------------------------
  // One pass: rewrite every row of `ks` the rule applies to, recomputing the access of its
  // user when it has one.

  datatype Rule =
    | Resync(answers: map<string, StripeSubscription>)
    | ExpireGrace(graceNow: Timestamp)
    | ExpireTrial(plans: map<string, Plan>, trialNow: Timestamp)

  predicate Applies(rule: Rule, row: Subscription) {
    match rule
    case Resync(answers) => Rewrites(row, answers)
    case ExpireGrace(now) => GraceElapsed(row, now)
    case ExpireTrial(plans, now) => TrialEnded(row, now) && !FreePlan(plans, row.planId)
  }

  function Rewrite(rule: Rule, row: Subscription): Subscription {
    if rule.Resync? then Resynced(row, rule.answers) else Expire(row)
  }

  function UsersOf(subs: map<SubId, Subscription>, ks: set<SubId>, rule: Rule): set<UserId> {
    set k | k in ks && k in subs && Applies(rule, subs[k]) && Truthy(subs[k].userId) :: subs[k].userId.value
  }

  /** A row after the pass, `visited` telling whether the loop reached it. */
  function PassRow(rule: Rule, visited: bool, row: Subscription): Subscription {
    if visited && Applies(rule, row) then Rewrite(rule, row) else row
  }

  function PassSubs(subs: map<SubId, Subscription>, ks: set<SubId>, rule: Rule): (r: map<SubId, Subscription>)
    ensures r.Keys == subs.Keys
    ensures forall k :: k in subs ==> r[k] == PassRow(rule, k in ks, subs[k])
  {
    map k | k in subs :: PassRow(rule, k in ks, subs[k])
  }

  function Pass(t: Tables, rule: Rule): (r: Tables)
    ensures r.subs.Keys == t.subs.Keys
    ensures r == t.(subs := r.subs, recomputed := r.recomputed)
  {
    t.(subs := PassSubs(t.subs, t.subs.Keys, rule), recomputed := t.recomputed + UsersOf(t.subs, t.subs.Keys, rule))
  }

  /** Processing a superset of the rows the rule applies to is the whole pass. */
  lemma PassCovers(subs: map<SubId, Subscription>, ks: set<SubId>, rule: Rule)
    requires forall k :: k in subs && Applies(rule, subs[k]) ==> k in ks
    ensures PassSubs(subs, ks, rule) == PassSubs(subs, subs.Keys, rule)
    ensures UsersOf(subs, ks, rule) == UsersOf(subs, subs.Keys, rule)
  {
    assert PassSubs(subs, ks, rule) == PassSubs(subs, subs.Keys, rule);
  }

  /** One more key processed: its row is rewritten when the rule applies... */
  lemma PassStep(subs: map<SubId, Subscription>, done: set<SubId>, x: SubId, rule: Rule)
    requires x in subs && x !in done
    ensures PassSubs(subs, done + {x}, rule) ==
      if Applies(rule, subs[x]) then PassSubs(subs, done, rule)[x := Rewrite(rule, subs[x])] else PassSubs(subs, done, rule)
  {
    var after := PassSubs(subs, done + {x}, rule);
    var before := PassSubs(subs, done, rule);
    var expected := if Applies(rule, subs[x]) then before[x := Rewrite(rule, subs[x])] else before;
    assert after.Keys == expected.Keys;
    forall k | k in after
      ensures after[k] == expected[k]
    {
      if k != x {
        assert after[k] == before[k];
      }
    }
  }

  /** ...and its user recomputed. */
  lemma UsersStep(subs: map<SubId, Subscription>, done: set<SubId>, x: SubId, rule: Rule)
    requires x in subs && x !in done
    ensures UsersOf(subs, done + {x}, rule) ==
      UsersOf(subs, done, rule) + if Applies(rule, subs[x]) && Truthy(subs[x].userId) then {subs[x].userId.value} else {}
  {
    var row := subs[x];
    if Applies(rule, row) && Truthy(row.userId) {
      assert UsersOf(subs, done + {x}, rule) == UsersOf(subs, done, rule) + {row.userId.value};
    } else {
      assert UsersOf(subs, done + {x}, rule) == UsersOf(subs, done, rule);
    }
  }

  /** What a counter counts. */
  datatype Criterion = Rewritten(rule: Rule) | StripeSelected | RetrievalFailed(answers: map<string, StripeSubscription>)

  predicate Meets(c: Criterion, row: Subscription) {
    match c
    case Rewritten(rule) => Applies(rule, row)
    case StripeSelected => InStripeSelection(row)
    case RetrievalFailed(answers) => Errs(row, answers)
  }

  /** The keys of `ks` whose row meets `c`. */
  function Chosen(subs: map<SubId, Subscription>, ks: set<SubId>, c: Criterion): set<SubId> {
    set k | k in ks && k in subs && Meets(c, subs[k])
  }

  function Count(subs: map<SubId, Subscription>, c: Criterion): nat {
    |Chosen(subs, subs.Keys, c)|
  }

  lemma ChosenStep(subs: map<SubId, Subscription>, ks: set<SubId>, x: SubId, c: Criterion)
    requires x in subs && x !in ks
    ensures |Chosen(subs, ks + {x}, c)| == |Chosen(subs, ks, c)| + if Meets(c, subs[x]) then 1 else 0
  {
    if Meets(c, subs[x]) {
      assert Chosen(subs, ks + {x}, c) == Chosen(subs, ks, c) + {x};
    } else {
      assert Chosen(subs, ks + {x}, c) == Chosen(subs, ks, c);
    }
  }

  lemma ChosenCovers(subs: map<SubId, Subscription>, ks: set<SubId>, c: Criterion)
    requires forall k :: k in subs && Meets(c, subs[k]) ==> k in ks
    ensures Chosen(subs, ks, c) == Chosen(subs, subs.Keys, c)
  {
  }

  // ---------------------------------------------------------------------------
  // Step 1.

  /** The try block for one selected row: retrieve, compare, and rewrite when the status drifted. */
  method VisitStripeRow(st: Store, id: SubId, answers: map<string, StripeSubscription>) returns (rewrote: bool, erred: bool)
    requires st.Valid() && id in st.subs && InStripeSelection(st.subs[id])
    modifies st
    ensures st.Valid()
    ensures rewrote == Rewrites(old(st.subs[id]), answers) && erred == Errs(old(st.subs[id]), answers)
    ensures st.subs == if rewrote then old(st.subs)[id := Resynced(old(st.subs[id]), answers)] else old(st.subs)
    ensures st.recomputed == old(st.recomputed) + if rewrote && Truthy(old(st.subs[id]).userId) then {old(st.subs[id]).userId.value} else {}
    ensures st.Snapshot() == old(st.Snapshot()).(subs := st.subs, recomputed := st.recomputed)
  {
    var row := st.subs[id];
    var sid := row.stripeSubId.value;
    rewrote, erred := false, false;
    if sid !in answers {
      erred := true;
    } else if StatusName(MapStripeStatus(answers[sid].status)) != row.status {
      if !HasPeriod(answers[sid]) {
        erred := true;
      } else {
        var after := Resynced(row, answers);
        st.UpdateSubscription(id, (r: Subscription) => after);
        if Truthy(row.userId) { st.RecomputeAccess(row.userId.value); }
        rewrote := true;
      }
    }
  }

  /** The state of a pass after visiting the rows of `done`, with its count of rewritten rows. */
  ghost predicate PassProgress(s: Tables, t0: Tables, rule: Rule, done: set<SubId>, updated: nat) {
    s == t0.(subs := PassSubs(t0.subs, done, rule), recomputed := t0.recomputed + UsersOf(t0.subs, done, rule)) &&
    updated == |Chosen(t0.subs, done, Rewritten(rule))|
  }

  lemma PassStart(t0: Tables, rule: Rule)
    ensures PassProgress(t0, t0, rule, {}, 0)
  {
    assert PassSubs(t0.subs, {}, rule) == t0.subs;
    assert UsersOf(t0.subs, {}, rule) == {};
    assert Chosen(t0.subs, {}, Rewritten(rule)) == {};
  }

  lemma PassFinish(s: Tables, t0: Tables, rule: Rule, done: set<SubId>, updated: nat)
    requires PassProgress(s, t0, rule, done, updated)
    requires forall k :: k in t0.subs && Applies(rule, t0.subs[k]) ==> k in done
    ensures s == Pass(t0, rule) && updated == Count(t0.subs, Rewritten(rule))
  {
    PassCovers(t0.subs, done, rule);
    ChosenCovers(t0.subs, done, Rewritten(rule));
  }

  /** Visiting a row the rule does not apply to changes nothing. */
  lemma PassSkip(s: Tables, t0: Tables, rule: Rule, done: set<SubId>, x: SubId, updated: nat)
    requires PassProgress(s, t0, rule, done, updated)
    requires x in t0.subs && x !in done && !Applies(rule, t0.subs[x])
    ensures PassProgress(s, t0, rule, done + {x}, updated)
  {
    PassStep(t0.subs, done, x, rule);
    UsersStep(t0.subs, done, x, rule);
    ChosenStep(t0.subs, done, x, Rewritten(rule));
  }

  /** Step 1's state after visiting the rows of `done`, with its three counters. */
  ghost predicate ResyncProgress(s: Tables, t0: Tables, answers: map<string, StripeSubscription>, done: set<SubId>,
                                 checked: nat, updated: nat, errors: nat) {
    PassProgress(s, t0, Resync(answers), done, updated) &&
    checked == |Chosen(t0.subs, done, StripeSelected)| &&
    errors == |Chosen(t0.subs, done, RetrievalFailed(answers))|
  }

  lemma ResyncStart(t0: Tables, answers: map<string, StripeSubscription>)
    ensures ResyncProgress(t0, t0, answers, {}, 0, 0, 0)
  {
    PassStart(t0, Resync(answers));
    assert Chosen(t0.subs, {}, StripeSelected) == {};
    assert Chosen(t0.subs, {}, RetrievalFailed(answers)) == {};
  }

  lemma ResyncFinish(s: Tables, t0: Tables, answers: map<string, StripeSubscription>, done: set<SubId>,
                     checked: nat, updated: nat, errors: nat)
    requires ResyncProgress(s, t0, answers, done, checked, updated, errors)
    requires forall k :: k in t0.subs && InStripeSelection(t0.subs[k]) ==> k in done
    ensures s == Pass(t0, Resync(answers))
    ensures checked == Count(t0.subs, StripeSelected)
    ensures updated == Count(t0.subs, Rewritten(Resync(answers)))
    ensures errors == Count(t0.subs, RetrievalFailed(answers))
  {
    PassFinish(s, t0, Resync(answers), done, updated);
    ChosenCovers(t0.subs, done, StripeSelected);
    ChosenCovers(t0.subs, done, RetrievalFailed(answers));
  }

  /** One iteration of step 1's loop: count the row, visit it, count the outcome. */
  method ReconcileOne(st: Store, id: SubId, answers: map<string, StripeSubscription>, ghost t0: Tables, ghost done: set<SubId>,
                      checked: nat, updated: nat, errors: nat) returns (checked': nat, updated': nat, errors': nat)
    requires st.Valid() && id in t0.subs && id !in done && InStripeSelection(t0.subs[id])
    requires ResyncProgress(st.Snapshot(), t0, answers, done, checked, updated, errors)
    modifies st
    ensures st.Valid()
    ensures ResyncProgress(st.Snapshot(), t0, answers, done + {id}, checked', updated', errors')
  {
    var rule := Resync(answers);
    ghost var row := t0.subs[id];
    PassStep(t0.subs, done, id, rule);
    UsersStep(t0.subs, done, id, rule);
    StripeCriteria(row, answers);
    ChosenStep(t0.subs, done, id, StripeSelected);
    ChosenStep(t0.subs, done, id, Rewritten(rule));
    ChosenStep(t0.subs, done, id, RetrievalFailed(answers));
    ghost var added: set<UserId> := if Rewrites(row, answers) && Truthy(row.userId) then {row.userId.value} else {};
    UnionAssoc(t0.recomputed, UsersOf(t0.subs, done, rule), added);
    assert st.subs[id] == row;
    var rewrote, erred := VisitStripeRow(st, id, answers);
    checked' := checked + 1;
    updated' := if rewrote then updated + 1 else updated;
    errors' := if erred then errors + 1 else errors;
  }

  lemma MoveToDone<T>(todo: set<T>, done: set<T>, x: T)
    requires x in todo && todo !! done
    ensures (todo - {x}) !! (done + {x}) && (todo - {x}) + (done + {x}) == todo + done
    ensures |todo - {x}| < |todo|
  {
  }

  lemma UnionAssoc<T>(a: set<T>, b: set<T>, c: set<T>)
    ensures (a + b) + c == a + (b + c)
  {
  }

  lemma StripeCriteria(row: Subscription, answers: map<string, StripeSubscription>)
    ensures Meets(StripeSelected, row) == InStripeSelection(row)
    ensures Meets(Rewritten(Resync(answers)), row) == Applies(Resync(answers), row) == Rewrites(row, answers)
    ensures Meets(RetrievalFailed(answers), row) == Errs(row, answers)
  {
  }

  method ReconcileStripe(st: Store, answers: map<string, StripeSubscription>) returns (checked: nat, updated: nat, errors: nat)
    requires st.Valid()
    modifies st
    ensures st.Valid()
    ensures st.Snapshot() == Pass(old(st.Snapshot()), Resync(answers))
    ensures checked == Count(old(st.subs), StripeSelected)
    ensures updated == Count(old(st.subs), Rewritten(Resync(answers)))
    ensures errors == Count(old(st.subs), RetrievalFailed(answers))
  {
    ghost var t0 := st.Snapshot();
    ghost var rule := Resync(answers);
    var todo := set k | k in st.subs && InStripeSelection(st.subs[k]);
    ghost var selected := todo;
    ghost var done: set<SubId> := {};
    checked, updated, errors := 0, 0, 0;
    ResyncStart(t0, answers);
    while todo != {}
      invariant st.Valid()
      invariant todo !! done && todo + done == selected
      invariant ResyncProgress(st.Snapshot(), t0, answers, done, checked, updated, errors)
      decreases |todo|
    {
      var id :| id in todo;
      checked, updated, errors := ReconcileOne(st, id, answers, t0, done, checked, updated, errors);
      MoveToDone(todo, done, id);
      todo := todo - {id};
      done := done + {id};
    }
    ResyncFinish(st.Snapshot(), t0, answers, done, checked, updated, errors);
  }

  // ---------------------------------------------------------------------------
  // Steps 2 and 3.

  /** Expire one row the rule applies to and recompute its user's access. */
  method ExpireRow(st: Store, id: SubId, ghost rule: Rule, ghost t0: Tables, ghost done: set<SubId>, updated: nat)
      returns (updated': nat)
    requires st.Valid() && !rule.Resync? && id in t0.subs && id !in done && Applies(rule, t0.subs[id])
    requires PassProgress(st.Snapshot(), t0, rule, done, updated)
    modifies st
    ensures st.Valid()
    ensures PassProgress(st.Snapshot(), t0, rule, done + {id}, updated')
  {
    ghost var row0 := t0.subs[id];
    PassStep(t0.subs, done, id, rule);
    UsersStep(t0.subs, done, id, rule);
    ChosenStep(t0.subs, done, id, Rewritten(rule));
    UnionAssoc(t0.recomputed, UsersOf(t0.subs, done, rule), if Truthy(row0.userId) then {row0.userId.value} else {});
    var row := st.subs[id];
    assert row == row0;
    var after := Expire(row);
    st.UpdateSubscription(id, (r: Subscription) => after);
    if Truthy(row.userId) { st.RecomputeAccess(row.userId.value); }
    updated' := updated + 1;
  }

  /** Step 2: expire every past_due row whose grace period has ended. */
  method ExpireGracePeriods(st: Store, now: Timestamp) returns (updated: nat)
    requires st.Valid()
    modifies st
    ensures st.Valid()
    ensures st.Snapshot() == Pass(old(st.Snapshot()), ExpireGrace(now))
    ensures updated == Count(old(st.subs), Rewritten(ExpireGrace(now)))
  {
    ghost var t0 := st.Snapshot();
    var todo := set k | k in st.subs && GraceElapsed(st.subs[k], now);
    ghost var selected := todo;
    ghost var done: set<SubId> := {};
    updated := 0;
    PassStart(t0, ExpireGrace(now));
    while todo != {}
      invariant st.Valid()
      invariant todo !! done && todo + done == selected
      invariant PassProgress(st.Snapshot(), t0, ExpireGrace(now), done, updated)
      decreases |todo|
    {
      var id :| id in todo;
      updated := ExpireRow(st, id, ExpireGrace(now), t0, done, updated);
      MoveToDone(todo, done, id);
      todo := todo - {id};
      done := done + {id};
    }
    PassFinish(st.Snapshot(), t0, ExpireGrace(now), done, updated);
  }

  /** Step 3: expire every self-managed trial that has ended, skipping free plans. */
  method ExpireTrials(st: Store, now: Timestamp) returns (updated: nat)
    requires st.Valid()
    modifies st
    ensures st.Valid()
    ensures st.Snapshot() == Pass(old(st.Snapshot()), ExpireTrial(old(st.plans), now))
    ensures updated == Count(old(st.subs), Rewritten(ExpireTrial(old(st.plans), now)))
  {
    ghost var t0 := st.Snapshot();
    ghost var rule := ExpireTrial(st.plans, now);
    var todo := set k | k in st.subs && TrialEnded(st.subs[k], now);
    ghost var selected := todo;
    ghost var done: set<SubId> := {};
    updated := 0;
    PassStart(t0, rule);
    while todo != {}
      invariant st.Valid()
      invariant todo !! done && todo + done == selected
      invariant PassProgress(st.Snapshot(), t0, rule, done, updated)
      decreases |todo|
    {
      var id :| id in todo;
      assert st.subs[id] == t0.subs[id];
      if FreePlan(st.plans, st.subs[id].planId) {
        PassSkip(st.Snapshot(), t0, rule, done, id, updated);
      } else {
        updated := ExpireRow(st, id, rule, t0, done, updated);
      }
      MoveToDone(todo, done, id);
      todo := todo - {id};
      done := done + {id};
    }
    PassFinish(st.Snapshot(), t0, rule, done, updated);
  }

  // ---------------------------------------------------------------------------
  // The route.

  datatype ReconcileResponse = Unauthorized | Reconciled(checked: nat, updated: nat, errors: nat, timestamp: Timestamp)

  function HttpStatus(r: ReconcileResponse): (code: int)
    ensures code == 401 <==> r.Unauthorized?
    ensures code == 200 <==> r.Reconciled?
  {
    if r.Unauthorized? then 401 else 200
  }

  datatype SweepResult = SweepResult(tables: Tables, checked: nat, updated: nat, errors: nat)

  /** The three steps in order, each reading the table the previous one left. */
  function Sweep(t: Tables, answers: map<string, StripeSubscription>, now: Timestamp): SweepResult {
    var t1 := Pass(t, Resync(answers));
    var t2 := Pass(t1, ExpireGrace(now));
    var t3 := Pass(t2, ExpireTrial(t.plans, now));
    SweepResult(t3, Count(t.subs, StripeSelected),
                Count(t.subs, Rewritten(Resync(answers))) + Count(t1.subs, Rewritten(ExpireGrace(now))) +
                Count(t2.subs, Rewritten(ExpireTrial(t.plans, now))),
                Count(t.subs, RetrievalFailed(answers)))
  }

  lemma SweepSteps(t0: Tables, t1: Tables, t2: Tables, t3: Tables, answers: map<string, StripeSubscription>, now: Timestamp)
    requires t1 == Pass(t0, Resync(answers)) && t2 == Pass(t1, ExpireGrace(now)) && t3 == Pass(t2, ExpireTrial(t0.plans, now))
    ensures Sweep(t0, answers, now) ==
      SweepResult(t3, Count(t0.subs, StripeSelected),
                  Count(t0.subs, Rewritten(Resync(answers))) + Count(t1.subs, Rewritten(ExpireGrace(now))) +
                  Count(t2.subs, Rewritten(ExpireTrial(t0.plans, now))),
                  Count(t0.subs, RetrievalFailed(answers)))
  {
  }

  /** The three steps in order. */
  method RunSweep(st: Store, answers: map<string, StripeSubscription>, now: Timestamp)
      returns (checked: nat, updated: nat, errors: nat)
    requires st.Valid()
    modifies st
    ensures st.Valid()
    ensures Sweep(old(st.Snapshot()), answers, now) == SweepResult(st.Snapshot(), checked, updated, errors)
  {
    ghost var t0 := st.Snapshot();
    var updated1, updated2, updated3;
    checked, updated1, errors := ReconcileStripe(st, answers);
    ghost var t1 := st.Snapshot();
    updated2 := ExpireGracePeriods(st, now);
    ghost var t2 := st.Snapshot();
    updated3 := ExpireTrials(st, now);
    updated := updated1 + updated2 + updated3;
    SweepSteps(t0, t1, t2, st.Snapshot(), answers, now);
  }

  /** The handler: 401 and no change without the secret, otherwise the sweep and its counters. */
  method Post(st: Store, header: Option<string>, cronSecret: Option<string>, answers: map<string, StripeSubscription>,
              now: Timestamp) returns (response: ReconcileResponse)
    requires st.Valid()
    modifies st
    ensures st.Valid()
    ensures !Authorized(header, cronSecret) ==> response == Unauthorized && st.Snapshot() == old(st.Snapshot())
    ensures Authorized(header, cronSecret) ==>
      var r := Sweep(old(st.Snapshot()), answers, now);
      st.Snapshot() == r.tables && response == Reconciled(r.checked, r.updated, r.errors, now)
  {
    if header != Some(ExpectedAuthorization(cronSecret)) {
      return Unauthorized;
    }
    var checked, updated, errors := RunSweep(st, answers, now);
    response := Reconciled(checked, updated, errors, now);
  }

  // ---------------------------------------------------------------------------
  // Properties of the sweep.

  /** Each row after the sweep, in terms of the row before it. */
  function SweptRow(row: Subscription, plans: map<string, Plan>, answers: map<string, StripeSubscription>,
                    now: Timestamp): Subscription {
    PassRow(ExpireTrial(plans, now), true, PassRow(ExpireGrace(now), true, PassRow(Resync(answers), true, row)))
  }

  lemma SweepRows(t: Tables, answers: map<string, StripeSubscription>, now: Timestamp)
    ensures var r := Sweep(t, answers, now).tables;
      r.subs.Keys == t.subs.Keys && r.plans == t.plans &&
      forall k :: k in t.subs ==> r.subs[k] == SweptRow(t.subs[k], t.plans, answers, now)
  {
  }

  lemma GraceStepClears(row: Subscription, plans: map<string, Plan>, now: Timestamp)
    ensures !GraceElapsed(PassRow(ExpireTrial(plans, now), true, PassRow(ExpireGrace(now), true, row)), now)
  {
    assert StatusName(SubscriptionStatus.Expired) != StatusName(PastDue);
  }

  lemma TrialStepClears(row: Subscription, plans: map<string, Plan>, now: Timestamp)
    ensures !Applies(ExpireTrial(plans, now), PassRow(ExpireTrial(plans, now), true, row))
  {
    assert StatusName(SubscriptionStatus.Expired) != StatusName(Trialing);
  }

  /** No grace period that ended before `now` is left past_due. */
  lemma SweepExpiresEndedGrace(t: Tables, answers: map<string, StripeSubscription>, now: Timestamp)
    ensures var r := Sweep(t, answers, now).tables;
      forall k :: k in r.subs ==> !GraceElapsed(r.subs[k], now)
  {
    SweepRows(t, answers, now);
    forall k | k in t.subs
      ensures !GraceElapsed(SweptRow(t.subs[k], t.plans, answers, now), now)
    {
      GraceStepClears(PassRow(Resync(answers), true, t.subs[k]), t.plans, now);
    }
  }

  /** No self-managed trial that ended before `now` is left trialing, unless its plan is free. */
  lemma SweepExpiresEndedTrials(t: Tables, answers: map<string, StripeSubscription>, now: Timestamp)
    ensures var r := Sweep(t, answers, now).tables;
      forall k :: k in r.subs ==> !(TrialEnded(r.subs[k], now) && !FreePlan(r.plans, r.subs[k].planId))
  {
    SweepRows(t, answers, now);
    forall k | k in t.subs
      ensures !Applies(ExpireTrial(t.plans, now), SweptRow(t.subs[k], t.plans, answers, now))
    {
      TrialStepClears(PassRow(ExpireGrace(now), true, PassRow(Resync(answers), true, t.subs[k])), t.plans, now);
    }
  }

  /** A trialing self-managed row on the free plan is never touched, however long ago it ended. */
  lemma FreeTrialRowUntouched(row: Subscription, plans: map<string, Plan>, answers: map<string, StripeSubscription>,
                              now: Timestamp)
    requires HasStatus(row, Trialing) && row.stripeSubId.None? && FreePlan(plans, row.planId)
    ensures SweptRow(row, plans, answers, now) == row
  {
    assert !Rewrites(row, answers);
    assert PassRow(Resync(answers), true, row) == row;
    assert StatusName(Trialing) != StatusName(PastDue);
    assert PassRow(ExpireGrace(now), true, row) == row;
  }

  lemma FreeTrialsNeverExpire(t: Tables, answers: map<string, StripeSubscription>, now: Timestamp, k: SubId)
    requires k in t.subs && HasStatus(t.subs[k], Trialing) && t.subs[k].stripeSubId.None?
    requires FreePlan(t.plans, t.subs[k].planId)
    ensures Sweep(t, answers, now).tables.subs[k] == t.subs[k]
  {
    SweepRows(t, answers, now);
    FreeTrialRowUntouched(t.subs[k], t.plans, answers, now);
  }

  /**
   * A row the Stripe webhook left with a status outside the enum (it copies Stripe's
   * `unpaid` verbatim) is selected by none of the three queries: the sweep never repairs it.
   */
  lemma UnknownStatusRowUntouched(row: Subscription, plans: map<string, Plan>, answers: map<string, StripeSubscription>,
                                  now: Timestamp)
    requires ParseStatus(row.status).None?
    ensures SweptRow(row, plans, answers, now) == row
  {
    assert ParseStatus(StatusName(Active)).Some? && ParseStatus(StatusName(Trialing)).Some? &&
           ParseStatus(StatusName(PastDue)).Some?;
    assert PassRow(Resync(answers), true, row) == row;
    assert PassRow(ExpireGrace(now), true, row) == row;
  }

  lemma UnknownStatusNeverRepaired(t: Tables, answers: map<string, StripeSubscription>, now: Timestamp, k: SubId)
    requires k in t.subs && ParseStatus(t.subs[k].status).None?
    ensures Sweep(t, answers, now).tables.subs[k] == t.subs[k]
  {
    SweepRows(t, answers, now);
    UnknownStatusRowUntouched(t.subs[k], t.plans, answers, now);
  }

  /** A resynced row carries Stripe's status, so it has nothing left to resync. */
  lemma ResyncSettles(row: Subscription, answers: map<string, StripeSubscription>)
    ensures !Rewrites(PassRow(Resync(answers), true, row), answers)
  {
    if Rewrites(row, answers) {
      var after := Resynced(row, answers);
      assert after.stripeSubId == row.stripeSubId;
      assert !Drifted(after, answers);
    }
  }

  /** Step 1 does not find again a row the first sweep left in its selection. */
  lemma SweptRowSettled(row: Subscription, plans: map<string, Plan>, answers: map<string, StripeSubscription>,
                        now: Timestamp)
    ensures var swept := SweptRow(row, plans, answers, now);
      !Rewrites(swept, answers) && !GraceElapsed(swept, now) && !Applies(ExpireTrial(plans, now), swept)
  {
    var row1 := PassRow(Resync(answers), true, row);
    var row2 := PassRow(ExpireGrace(now), true, row1);
    var row3 := PassRow(ExpireTrial(plans, now), true, row2);
    ResyncSettles(row, answers);
    GraceStepClears(row1, plans, now);
    TrialStepClears(row2, plans, now);
    var expired := StatusName(SubscriptionStatus.Expired);
    assert expired != StatusName(Active) && expired != StatusName(Trialing) && expired != StatusName(PastDue);
    if InStripeSelection(row3) {
      assert row3 == row2 && row2 == row1;
    }
  }

  /** A pass whose rule applies to no row changes nothing and counts nothing. */
  lemma PassIdle(t: Tables, rule: Rule)
    requires forall k :: k in t.subs ==> !Applies(rule, t.subs[k])
    ensures Pass(t, rule) == t && Count(t.subs, Rewritten(rule)) == 0
  {
    assert PassSubs(t.subs, t.subs.Keys, rule) == t.subs;
    assert UsersOf(t.subs, t.subs.Keys, rule) == {};
    assert Chosen(t.subs, t.subs.Keys, Rewritten(rule)) == {};
  }

  /**
   * With the same answers from Stripe at the same instant, a second sweep changes nothing
   * and reports nothing updated.
   */
  lemma SweepIdempotent(t: Tables, answers: map<string, StripeSubscription>, now: Timestamp)
    ensures var r := Sweep(t, answers, now);
      var again := Sweep(r.tables, answers, now);
      again.tables == r.tables && again.updated == 0
  {
    var r := Sweep(t, answers, now).tables;
    SweepRows(t, answers, now);
    forall k | k in r.subs
      ensures !Applies(Resync(answers), r.subs[k]) && !Applies(ExpireGrace(now), r.subs[k]) &&
              !Applies(ExpireTrial(r.plans, now), r.subs[k])
    {
      SweptRowSettled(t.subs[k], t.plans, answers, now);
    }
    SweepOfSettled(r, answers, now);
  }

  lemma SweepOfSettled(r: Tables, answers: map<string, StripeSubscription>, now: Timestamp)
    requires forall k :: k in r.subs ==>
      !Applies(Resync(answers), r.subs[k]) && !Applies(ExpireGrace(now), r.subs[k]) &&
      !Applies(ExpireTrial(r.plans, now), r.subs[k])
    ensures Sweep(r, answers, now).tables == r && Sweep(r, answers, now).updated == 0
  {
    PassIdle(r, Resync(answers));
    PassIdle(r, ExpireGrace(now));
    PassIdle(r, ExpireTrial(r.plans, now));
  }

  lemma {:induction false} SubsetCard<T>(a: set<T>, b: set<T>)
    requires a <= b
    ensures |a| <= |b|
    decreases |b|
  {
    if a != {} {
      var x :| x in a;
      SubsetCard(a - {x}, b - {x});
    }
  }

  /**
   * Step 1 counts every selected row once, and a row is never both rewritten and an
   * error: the step's `updated` share plus `errors` never exceeds `checked`.
   */
  lemma StripeCountsBounded(t: Tables, answers: map<string, StripeSubscription>)
    ensures Count(t.subs, Rewritten(Resync(answers))) + Count(t.subs, RetrievalFailed(answers)) <= Count(t.subs, StripeSelected)
  {
    var rewritten := Chosen(t.subs, t.subs.Keys, Rewritten(Resync(answers)));
    var failed := Chosen(t.subs, t.subs.Keys, RetrievalFailed(answers));
    var selected := Chosen(t.subs, t.subs.Keys, StripeSelected);
    assert rewritten !! failed;
    SubsetCard(rewritten + failed, selected);
  }
}
