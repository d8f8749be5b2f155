/**
 * The persistent store the routes read and write: the subscriptions, invoices and
 * webhook_events tables, the read-only subscription_plans table, the license and
 * professional-profile tables, and two logs of external side effects (the subscribers
 * whose product access was recomputed, and the append-only audit_log).
 *
 * `Tables` is the value of the whole store; the `Store` class holds the same tables as
 * fields that the route methods update in place.
 */
module Store {
  import opened Database

  datatype Tables = Tables(
    subs: map<SubId, Subscription>,
    invoices: seq<Invoice>,
    events: map<EventKey, WebhookEvent>,
    plans: map<string, Plan>,
    nextId: SubId,
    recomputed: set<UserId>,
    audit: seq<AuditEntry>,
    verifications: map<string, LicenseVerification>,
    profiles: map<UserId, ProfessionalProfile>)

  /** Every stored subscription id was handed out before `nextId`. */
  predicate FreshIds(t: Tables) {
    forall k :: k in t.subs ==> k < t.nextId
  }

  lemma SingletonUnique<K>(s: set<K>, a: K, b: K)
    requires |s| == 1 && a in s && b in s
    ensures a == b
  {
    assert |s - {a}| == 0;
    assert b !in s - {a};
  }

  /**
   * The `.single()` lookup: the key of the one entry satisfying `p`, or None when no
   * entry or more than one entry does.
   */
  function SingleMatch<K, V>(m: map<K, V>, p: V -> bool): (r: Option<K>)
    ensures r.Some? ==> r.value in m && p(m[r.value])
    ensures r.Some? ==> forall k :: k in m && p(m[k]) ==> k == r.value
    ensures r.None? ==> (forall k :: k in m ==> !p(m[k])) || exists j, k :: j in m && k in m && j != k && p(m[j]) && p(m[k])
  {
    var ids := set k | k in m && p(m[k]);
    if |ids| == 1 then
      var k :| k in ids;
      assert forall a, b :: a in ids && b in ids ==> a == b by {
        forall a, b | a in ids && b in ids ensures a == b { SingletonUnique(ids, a, b); }
      }
      assert forall j :: j in m && p(m[j]) ==> j in ids;
      Some(k)
    else if |ids| == 0 then
      assert forall k :: k in m && p(m[k]) ==> k in ids;
      None
    else
      var j :| j in ids;
      assert |ids - {j}| == |ids| - 1;
      var k :| k in ids - {j};
      None
  }

  /** `.single()` finds the one key that matches. */
  lemma SingleMatchOne<K, V>(m: map<K, V>, p: V -> bool, k: K)
    requires k in m && p(m[k])
    requires forall j :: j in m && p(m[j]) ==> j == k
    ensures SingleMatch(m, p) == Some(k)
  {
    var ids := set j | j in m && p(m[j]);
    assert ids == {k};
  }

  /** `.single()` depends only on which keys match. */
  lemma SameMatches<K, V>(m1: map<K, V>, p1: V -> bool, m2: map<K, V>, p2: V -> bool)
    requires m1.Keys == m2.Keys
    requires forall k :: k in m1 ==> (p1(m1[k]) <==> p2(m2[k]))
    ensures SingleMatch(m1, p1) == SingleMatch(m2, p2)
  {
    var ids1 := set k | k in m1 && p1(m1[k]);
    var ids2 := set k | k in m2 && p2(m2[k]);
    assert ids1 == ids2;
  }

  /** Some entry satisfies `p` (a `.limit(1).single()` that found a row). */
  predicate AnyMatch<K, V>(m: map<K, V>, p: V -> bool) {
    exists k :: k in m && p(m[k])
  }

  /** Insert a subscription row under the next fresh id. */
  function InsertSub(t: Tables, row: Subscription): (r: Tables)
    ensures FreshIds(t) ==> t.nextId !in t.subs && FreshIds(r)
    ensures r.subs == t.subs[t.nextId := row] && r.nextId == t.nextId + 1
    ensures r == t.(subs := r.subs, nextId := r.nextId)
  {
    t.(subs := t.subs[t.nextId := row], nextId := t.nextId + 1)
  }

  /** `update(...).eq('id', id)`: rewrite one row if it exists; an absent id matches nothing. */
  function UpdateSub(t: Tables, id: SubId, f: Subscription -> Subscription): (r: Tables)
    ensures r.subs.Keys == t.subs.Keys
    ensures id in t.subs ==> r.subs[id] == f(t.subs[id])
    ensures forall k :: k in t.subs && k != id ==> r.subs[k] == t.subs[k]
    ensures r == t.(subs := r.subs)
  {
    if id in t.subs then t.(subs := t.subs[id := f(t.subs[id])]) else t
  }

  /** Record a call of recompute_user_product_access for `user`. */
  function Recompute(t: Tables, user: UserId): (r: Tables)
    ensures user in r.recomputed && t.recomputed <= r.recomputed && r.recomputed - t.recomputed <= {user}
    ensures r == t.(recomputed := r.recomputed)
  {
    t.(recomputed := t.recomputed + {user})
  }

  /** `update(...)` filtered by a column predicate: rewrite every row that satisfies `p`. */
  function UpdateWhere(t: Tables, p: Subscription -> bool, f: Subscription -> Subscription): (r: Tables)
    ensures r.subs.Keys == t.subs.Keys
    ensures forall k :: k in t.subs ==> r.subs[k] == (if p(t.subs[k]) then f(t.subs[k]) else t.subs[k])
    ensures r == t.(subs := r.subs)
  {
    t.(subs := map k | k in t.subs :: if p(t.subs[k]) then f(t.subs[k]) else t.subs[k])
  }

  /** invoices only grow: every existing invoice keeps its position and `inv` comes last. */
  function AppendInvoice(t: Tables, inv: Invoice): (r: Tables)
    ensures |r.invoices| == |t.invoices| + 1 && r.invoices[..|t.invoices|] == t.invoices && r.invoices[|t.invoices|] == inv
    ensures r == t.(invoices := r.invoices)
  {
    t.(invoices := t.invoices + [inv])
  }

  /** audit_log accepts inserts only: the old log is a prefix of the new one, which ends with `e`. */
  function AppendAudit(t: Tables, e: AuditEntry): (r: Tables)
    ensures |r.audit| == |t.audit| + 1 && t.audit <= r.audit && r.audit[|t.audit|] == e
    ensures r == t.(audit := r.audit)
  {
    t.(audit := t.audit + [e])
  }

  /** Write the license verification `id`. */
  function PutVerification(t: Tables, id: string, v: LicenseVerification): (r: Tables)
    ensures r.verifications.Keys == t.verifications.Keys + {id} && r.verifications[id] == v
    ensures forall k :: k in t.verifications && k != id ==> r.verifications[k] == t.verifications[k]
    ensures r == t.(verifications := r.verifications)
  {
    t.(verifications := t.verifications[id := v])
  }

  /** Write the professional profile of `user`. */
  function PutProfile(t: Tables, user: UserId, p: ProfessionalProfile): (r: Tables)
    ensures r.profiles.Keys == t.profiles.Keys + {user} && r.profiles[user] == p
    ensures forall k :: k in t.profiles && k != user ==> r.profiles[k] == t.profiles[k]
    ensures r == t.(profiles := r.profiles)
  {
    t.(profiles := t.profiles[user := p])
  }

  /** Write the CFDI columns of invoice `i` when it exists. */
  function SetInvoiceCfdi(t: Tables, i: nat, c: CfdiFields): (r: Tables)
    ensures |r.invoices| == |t.invoices|
    ensures forall j :: 0 <= j < |t.invoices| ==> r.invoices[j] == (if j == i then t.invoices[j].(cfdi := c) else t.invoices[j])
    ensures r == t.(invoices := r.invoices)
  {
    if i < |t.invoices| then t.(invoices := t.invoices[i := t.invoices[i].(cfdi := c)]) else t
  }

  /** The `??` fallback of `grace_period_days`: 3 when the plan or its value is missing. */
  function GraceDays(plans: map<string, Plan>, planId: string): int {
    if planId in plans && plans[planId].gracePeriodDays.Some? then plans[planId].gracePeriodDays.value else 3
  }

  /** `recompute_user_product_access` for a row whose user_id is truthy. */
  function RecomputeIfUser(t: Tables, user: Option<UserId>): (r: Tables)
    ensures t.recomputed <= r.recomputed
    ensures Truthy(user) ==> user.value in r.recomputed && r.recomputed - t.recomputed <= {user.value}
    ensures !Truthy(user) ==> r == t
    ensures r == t.(recomputed := r.recomputed)
  {
    if Truthy(user) then Recompute(t, user.value) else t
  }

  class Store {
    var subs: map<SubId, Subscription>
    var invoices: seq<Invoice>
    var events: map<EventKey, WebhookEvent>
    var plans: map<string, Plan>
    var nextId: SubId
    ghost var recomputed: set<UserId>
    ghost var audit: seq<AuditEntry>
    var verifications: map<string, LicenseVerification>
    var profiles: map<UserId, ProfessionalProfile>

    ghost function Snapshot(): Tables
      reads this
    {
      Tables(subs, invoices, events, plans, nextId, recomputed, audit, verifications, profiles)
    }

    ghost predicate Valid()
      reads this
    {
      FreshIds(Snapshot())
    }

    constructor (plans: map<string, Plan>)
      ensures Valid()
      ensures Snapshot() == Tables(map[], [], map[], plans, 0, {}, [], map[], map[])
    {
      this.subs := map[];
      this.invoices := [];
      this.events := map[];
      this.plans := plans;
      this.nextId := 0;
      this.recomputed := {};
      this.audit := [];
      this.verifications := map[];
      this.profiles := map[];
    }

    /** Insert a subscription row; the store assigns it a fresh id. */
    method InsertSubscription(row: Subscription) returns (id: SubId)
      requires Valid()
      modifies this
      ensures Valid()
      ensures id == old(nextId) && id !in old(subs)
      ensures Snapshot() == InsertSub(old(Snapshot()), row)
    {
      id := nextId;
      subs := subs[id := row];
      nextId := nextId + 1;
    }

    /** Rewrite the row `id` with `f` when it exists. */
    method UpdateSubscription(id: SubId, f: Subscription -> Subscription)
      requires Valid()
      modifies this
      ensures Valid()
      ensures Snapshot() == UpdateSub(old(Snapshot()), id, f)
    {
      if id in subs {
        subs := subs[id := f(subs[id])];
      }
    }

    /** Rewrite every row that satisfies `p` with `f`. */
    method UpdateSubscriptionsWhere(p: Subscription -> bool, f: Subscription -> Subscription)
      requires Valid()
      modifies this
      ensures Valid()
      ensures Snapshot() == UpdateWhere(old(Snapshot()), p, f)
    {
      subs := map k | k in subs :: if p(subs[k]) then f(subs[k]) else subs[k];
    }

    method InsertInvoice(inv: Invoice)
      modifies this
      ensures Snapshot() == AppendInvoice(old(Snapshot()), inv)
    {
      invoices := invoices + [inv];
    }

    method InsertAudit(e: AuditEntry)
      modifies this
      ensures Snapshot() == AppendAudit(old(Snapshot()), e)
    {
      audit := audit + [e];
    }

    method WriteVerification(id: string, v: LicenseVerification)
      modifies this
      ensures Snapshot() == PutVerification(old(Snapshot()), id, v)
    {
      verifications := verifications[id := v];
    }

    method WriteProfile(user: UserId, p: ProfessionalProfile)
      modifies this
      ensures Snapshot() == PutProfile(old(Snapshot()), user, p)
    {
      profiles := profiles[user := p];
    }

    method WriteInvoiceCfdi(i: nat, c: CfdiFields)
      modifies this
      ensures Snapshot() == SetInvoiceCfdi(old(Snapshot()), i, c)
    {
      if i < |invoices| {
        invoices := invoices[i := invoices[i].(cfdi := c)];
      }
    }

    method RecomputeAccess(user: UserId)
      modifies this
      ensures Snapshot() == Recompute(old(Snapshot()), user)
    {
      recomputed := recomputed + {user};
    }
  }
}
