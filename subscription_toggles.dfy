/**
 * The cancel and reactivate routes (src/app/api/subscription/cancel/route.ts and
 * src/app/api/subscription/reactivate/route.ts). Both pick the signed-in user's most
 * recent active or trialing subscription (reactivate: only one already scheduled to end),
 * ask Stripe to set `cancel_at_period_end`, and then set the same flag on the local row.
 *
 * The two routes differ only in the flag they write and the extra filter on the query, so
 * one `Toggle` value selects between them. Stripe's answer is a parameter: whether the
 * update call throws.
 */
module SubscriptionToggles {
  import opened Database
  import opened Store

  /** Cancel sets `cancel_at_period_end`, Reactivate clears it. */
  datatype Toggle = Cancel | Reactivate

  function FlagOf(toggle: Toggle): bool {
    toggle == Cancel
  }

  datatype ToggleResponse =
    | NotAuthenticated
    | NoSubscription
    | ProcessorError
    | Toggled(stripeSubId: string, cancelAtPeriodEnd: bool)

  function HttpStatus(r: ToggleResponse): (code: int)
    ensures code == 200 <==> r.Toggled?
    ensures code == 400 <==> r == NoSubscription
  {
    match r
    case NotAuthenticated => 401
    case NoSubscription => 400
    case ProcessorError => 500
    case Toggled(_, _) => 200
  }

  /**
   * The rows the query filters to: the user's active or trialing rows, and for Reactivate
   * only those already scheduled to end.
   */
  predicate Candidate(row: Subscription, user: UserId, toggle: Toggle) {
    row.userId == Some(user) && (HasStatus(row, Active) || HasStatus(row, Trialing)) &&
    (toggle == Cancel || row.cancelAtPeriodEnd)
  }

  /**
   * `pick` is an answer `.order('created_at', desc).limit(1).single()` can give: a candidate
   * no other candidate is newer than, or nothing when there is no candidate. Rows created
   * at the same instant may come back in either order.
   */
  predicate Latest(subs: map<SubId, Subscription>, user: UserId, toggle: Toggle, pick: Option<SubId>) {
    if pick.Some? then
      pick.value in subs && Candidate(subs[pick.value], user, toggle) &&
      forall k :: k in subs && Candidate(subs[k], user, toggle) ==> subs[k].createdAt <= subs[pick.value].createdAt
    else forall k :: k in subs ==> !Candidate(subs[k], user, toggle)
  }

  /** The route as a function of the store, the query's answer and whether Stripe throws. */
  function ToggleRoute(t: Tables, toggle: Toggle, user: Option<UserId>, pick: Option<SubId>,
                       processorThrows: bool): (Tables, ToggleResponse)
  {
    if user.None? then (t, NotAuthenticated)
    else if pick.None? || pick.value !in t.subs || !Truthy(t.subs[pick.value].stripeSubId) then (t, NoSubscription)
    else if processorThrows then (t, ProcessorError)
    else
      var flag := FlagOf(toggle);
      (UpdateSub(t, pick.value, (row: Subscription) => row.(cancelAtPeriodEnd := flag)),
       Toggled(t.subs[pick.value].stripeSubId.value, flag))
  }

  lemma {:induction false} NewestExists(subs: map<SubId, Subscription>, ids: set<SubId>)
    requires ids != {} && ids <= subs.Keys
    ensures exists k :: k in ids && forall j :: j in ids ==> subs[j].createdAt <= subs[k].createdAt
    decreases |ids|
  {
    var x :| x in ids;
    if ids != {x} {
      NewestExists(subs, ids - {x});
      var y :| y in ids - {x} && forall j :: j in ids - {x} ==> subs[j].createdAt <= subs[y].createdAt;
      if subs[x].createdAt <= subs[y].createdAt {
        assert forall j :: j in ids ==> subs[j].createdAt <= subs[y].createdAt;
      } else {
        assert forall j :: j in ids ==> subs[j].createdAt <= subs[x].createdAt;
      }
    } else {
      assert forall j :: j in ids ==> j == x;
    }
  }

  /** Whatever the store holds, the query has an answer. */
  lemma LatestExists(subs: map<SubId, Subscription>, user: UserId, toggle: Toggle)
    ensures exists pick :: Latest(subs, user, toggle, pick)
  {
    var ids := set k | k in subs && Candidate(subs[k], user, toggle);
    if ids == {} {
      assert forall k :: k in subs && Candidate(subs[k], user, toggle) ==> k in ids;
      assert Latest(subs, user, toggle, None);
    } else {
      NewestExists(subs, ids);
      var k :| k in ids && forall j :: j in ids ==> subs[j].createdAt <= subs[k].createdAt;
      assert Latest(subs, user, toggle, Some(k));
    }
  }

  method Post(st: Store, toggle: Toggle, user: Option<UserId>, processorThrows: bool)
    returns (response: ToggleResponse, pick: Option<SubId>)
    requires st.Valid()
    modifies st
    ensures st.Valid()
    ensures user.Some? ==> Latest(old(st.subs), user.value, toggle, pick)
    ensures (st.Snapshot(), response) == ToggleRoute(old(st.Snapshot()), toggle, user, pick, processorThrows)
  {
    pick := None;
    if user.None? {
      return NotAuthenticated, pick;
    }
    LatestExists(st.subs, user.value, toggle);
    pick :| Latest(st.subs, user.value, toggle, pick);
    if pick.None? || !Truthy(st.subs[pick.value].stripeSubId) {
      return NoSubscription, pick;
    }
    if processorThrows {
      return ProcessorError, pick;
    }
    var flag := FlagOf(toggle);
    st.UpdateSubscription(pick.value, (row: Subscription) => row.(cancelAtPeriodEnd := flag));
    response := Toggled(st.subs[pick.value].stripeSubId.value, flag);
  }

  // ---------------------------------------------------------------------------
  // Properties.

  /** An unauthenticated caller gets 401 from either route, and nothing is written. */
  lemma UnauthenticatedRefused(t: Tables, toggle: Toggle, pick: Option<SubId>, processorThrows: bool)
    ensures ToggleRoute(t, toggle, None, pick, processorThrows) == (t, NotAuthenticated)
    ensures HttpStatus(NotAuthenticated) == 401
  {
  }

  /**
   * A successful toggle tells Stripe the picked row's subscription id and writes the
   * toggle's flag on that row alone; every other column and every other table is kept.
   * Any other outcome writes nothing.
   */
  lemma ToggleWritesOnlyTheFlag(t: Tables, toggle: Toggle, user: UserId, pick: Option<SubId>, processorThrows: bool)
    ensures var (r, response) := ToggleRoute(t, toggle, Some(user), pick, processorThrows);
      (!response.Toggled? ==> r == t) &&
      (response.Toggled? ==>
        pick.Some? && pick.value in t.subs && Truthy(t.subs[pick.value].stripeSubId) && !processorThrows &&
        response.stripeSubId == t.subs[pick.value].stripeSubId.value &&
        response.cancelAtPeriodEnd == (toggle == Cancel) &&
        r == t.(subs := t.subs[pick.value := t.subs[pick.value].(cancelAtPeriodEnd := toggle == Cancel)]))
  {
    var (r, response) := ToggleRoute(t, toggle, Some(user), pick, processorThrows);
    if response.Toggled? {
      assert r.subs == t.subs[pick.value := t.subs[pick.value].(cancelAtPeriodEnd := toggle == Cancel)];
    }
  }

  /** Reactivate finds nothing, and answers 400, when none of the user's live rows is scheduled to end. */
  lemma NothingToReactivate(t: Tables, user: UserId, pick: Option<SubId>, processorThrows: bool)
    requires Latest(t.subs, user, Reactivate, pick)
    ensures (forall k :: k in t.subs && t.subs[k].userId == Some(user) &&
                         (HasStatus(t.subs[k], Active) || HasStatus(t.subs[k], Trialing))
                         ==> !t.subs[k].cancelAtPeriodEnd) ==>
      pick.None? && ToggleRoute(t, Reactivate, Some(user), pick, processorThrows) == (t, NoSubscription)
  {
  }

  /**
   * Only the newest candidate is looked at: when it has no Stripe subscription id, the
   * route answers 400 even if an older candidate has one.
   */
  lemma NewestWithoutStripeIdBlocks(t: Tables, toggle: Toggle, user: UserId, pick: Option<SubId>, older: SubId,
                                    processorThrows: bool)
    requires Latest(t.subs, user, toggle, pick)
    requires older in t.subs && Candidate(t.subs[older], user, toggle) && Truthy(t.subs[older].stripeSubId)
    ensures pick.Some? && t.subs[older].createdAt <= t.subs[pick.value].createdAt
    ensures !Truthy(t.subs[pick.value].stripeSubId) ==>
      ToggleRoute(t, toggle, Some(user), pick, processorThrows) == (t, NoSubscription)
  {
  }

  /**
   * Cancelling and then reactivating restores the store: after a successful cancel of a
   * row that was not scheduled to end, that row is an answer the reactivate query can give,
   * and reactivating it clears the flag again.
   */
  lemma CancelThenReactivate(t: Tables, user: UserId, pick: SubId)
    requires Latest(t.subs, user, Cancel, Some(pick)) && Truthy(t.subs[pick].stripeSubId)
    requires !t.subs[pick].cancelAtPeriodEnd
    ensures var (t1, r1) := ToggleRoute(t, Cancel, Some(user), Some(pick), false);
      r1 == Toggled(t.subs[pick].stripeSubId.value, true) &&
      Latest(t1.subs, user, Reactivate, Some(pick)) &&
      ToggleRoute(t1, Reactivate, Some(user), Some(pick), false) == (t, Toggled(t.subs[pick].stripeSubId.value, false))
  {
    ToggleWritesOnlyTheFlag(t, Cancel, user, Some(pick), false);
    var t1 := ToggleRoute(t, Cancel, Some(user), Some(pick), false).0;
    forall k | k in t1.subs && Candidate(t1.subs[k], user, Reactivate)
      ensures t1.subs[k].createdAt <= t1.subs[pick].createdAt
    {
      assert Candidate(t.subs[k], user, Cancel);
    }
    ToggleWritesOnlyTheFlag(t1, Reactivate, user, Some(pick), false);
    assert t1.subs[pick := t1.subs[pick].(cancelAtPeriodEnd := false)] == t.subs;
  }

  /**
   * Cancelling twice is the same as cancelling once: the row stays the newest candidate
   * and writing the flag again changes nothing.
   */
  lemma CancelIdempotent(t: Tables, user: UserId, pick: SubId)
    requires Latest(t.subs, user, Cancel, Some(pick)) && Truthy(t.subs[pick].stripeSubId)
    ensures var t1 := ToggleRoute(t, Cancel, Some(user), Some(pick), false).0;
      Latest(t1.subs, user, Cancel, Some(pick)) &&
      ToggleRoute(t1, Cancel, Some(user), Some(pick), false).0 == t1
  {
    ToggleWritesOnlyTheFlag(t, Cancel, user, Some(pick), false);
    var t1 := ToggleRoute(t, Cancel, Some(user), Some(pick), false).0;
    forall k | k in t1.subs && Candidate(t1.subs[k], user, Cancel)
      ensures t1.subs[k].createdAt <= t1.subs[pick].createdAt
    {
      assert Candidate(t.subs[k], user, Cancel);
    }
    ToggleWritesOnlyTheFlag(t1, Cancel, user, Some(pick), false);
    assert t1.subs[pick := t1.subs[pick].(cancelAtPeriodEnd := true)] == t1.subs;
  }
}
