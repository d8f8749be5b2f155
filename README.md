# DeepLux subscription lifecycle, modelled in Dafny

This project models the subscription lifecycle engine of the DeepLux medical platform
(a Next.js application on Supabase). It covers:

- the Stripe and Conekta webhook handlers and the idempotency log (`webhook_events`)
  that sits in front of them;
- the cron-driven reconciliation sweep;
- the checkout initiator and the cancel and reactivate routes;
- the dashboard-role resolution, the routing middleware and the trust-level table;
- the admin's license approve and reject actions;
- the CFDI (Mexican tax invoice) request and its ordered guard chain;
- profile normalisation on save and profile creation at the end of onboarding;
- the shared constants: the Mexican states and the RFC, CURP and cédula patterns.

The database is a `Store` class (module `Store`). Its fields are the tables that the
routes write:

- subscriptions: a map from row id to row;
- invoices: a sequence;
- the webhook event log: a map keyed by processor and event id;
- license verifications and professional profiles: maps;
- plans: read-only.

Two ghost fields record the calls to `recompute_user_product_access` and the append-only
audit log. `Store.Snapshot()` gives the same tables as a value (`Tables`).

Every route is written twice:

- as a function from `Tables` to the new `Tables` and the response, which lemmas can
  relate across calls;
- as a method that changes the store step by step, as the route does. Its `ensures`
  says that the new snapshot and the response are exactly what the function gives for
  the old snapshot.

The outside world is a set of parameters:

- the session user and the role lookup;
- Stripe's retrieved objects, or the fact that a retrieval threw;
- the Conekta MAC function;
- the instant `now`;
- whether each write the code branches on reports an error.

`.single()` is modelled exactly: it finds one row only when exactly one row matches.

Some statuses and intervals are copied verbatim from processors or metadata. The model
therefore stores `status` and `billing_interval` as strings, next to the six-value status
enumeration and its name and parse round trip.

## Model

| member | source | states |
|---|---|---|
| Database.OrNull | src/app/registro/create-profile.ts:39-48 | `x \|\| null`: the result is present iff the input is a non-empty string, and is then the input itself |
| Database.ParseStatusExact | src/types/database.ts:6 | a stored status string denotes status `s` iff it is the name of `s` (parse/name round trip, both directions) |
| Database.StatusNameInjective | src/types/database.ts:6 | distinct statuses have distinct names |
| Database.ParseRowInterval | src/types/database.ts:192 | an accepted row interval is one of monthly, annual or free (never lifetime), and its name is the input |
| Database.RowIntervalExact | src/types/database.ts:9 | an interval's name is accepted on a subscription row iff it is not lifetime |
| Store.SingleMatch | src/app/api/webhooks/stripe/route.ts:139-143 | `.single()`: when it returns a key, that key's row matches and no other row does; when it returns None, either no row matches or two distinct rows do |
| Store.SingleMatchOne | src/app/api/webhooks/stripe/route.ts:139-143 | when exactly one row matches, `.single()` returns it |
| Store.SameMatches | src/app/api/webhooks/stripe/route.ts:139-143 | `.single()` depends only on which keys match |
| Store.InsertSub | src/app/api/webhooks/conekta/route.ts:149-166 | an insert adds the row under a fresh id, keeps ids fresh, and changes no other table |
| Store.UpdateSub | src/app/api/webhooks/conekta/route.ts:201-209 | `update().eq('id', id)` rewrites row `id` when it exists, keeps every other row and key, and changes no other table |
| Store.Recompute | src/app/api/webhooks/stripe/route.ts:122 | the recomputed users only grow: the user is among them afterwards, no other user is added, and no other table changes |
| Store.AppendInvoice | src/app/api/webhooks/stripe/route.ts:163-175 | invoices only grow by one: every existing invoice keeps its position (its id), the new one comes last, and no other table changes |
| Store.AppendAudit | src/app/api/webhooks/stripe/route.ts:124-129 | the audit log only grows: the old log is a prefix of the new one, which is one entry longer and ends with the entry |
| Store.PutVerification | src/app/admin/actions.ts:35-44 | afterwards the id holds the new row, the ids are the old ones plus this one, every other row is kept, and no other table changes |
| Store.PutProfile | src/app/perfil/actions.ts:53-58 | afterwards the user holds the new row, the keys are the old ones plus this user, every other user's row is kept, and no other table changes |
| Store.SetInvoiceCfdi | src/app/api/cfdi/request/route.ts:113-122 | the CFDI update rewrites the CFDI columns of that one invoice; the other invoices and columns are kept |
| Store.RecomputeIfUser | src/app/api/webhooks/stripe/route.ts:177-179 | the recomputed users only grow; a truthy user_id is among them afterwards and is the only one added; a falsy one changes nothing |
| Store.Store.constructor | src/types/database.ts:184-304 | a new store is empty apart from its plans, with fresh ids |
| Store.Store.InsertSubscription | src/app/api/webhooks/conekta/route.ts:149-166 | returns a fresh id and leaves the store as `InsertSub` describes |
| Store.Store.UpdateSubscription | src/app/api/webhooks/conekta/route.ts:201-209 | the store afterwards is `UpdateSub` of the store before |
| Store.Store.UpdateSubscriptionsWhere | src/app/api/webhooks/stripe/route.ts:105-120 | the store afterwards is `UpdateWhere` of the store before |
| Store.Store.InsertInvoice | src/app/api/webhooks/stripe/route.ts:163-175 | the store afterwards is `AppendInvoice` of the store before |
| Store.Store.InsertAudit | src/app/api/webhooks/stripe/route.ts:248-253 | the store afterwards is `AppendAudit` of the store before |
| Store.Store.WriteVerification | src/app/admin/actions.ts:35-44 | the store afterwards is `PutVerification` of the store before |
| Store.Store.WriteProfile | src/app/perfil/actions.ts:53-58 | the store afterwards is `PutProfile` of the store before |
| Store.Store.WriteInvoiceCfdi | src/app/api/cfdi/request/route.ts:113-122 | the store afterwards is `SetInvoiceCfdi` of the store before |
| Store.Store.RecomputeAccess | src/app/api/webhooks/stripe/route.ts:122 | the store afterwards is `Recompute` of the store before |
| Text.LeadingSpaces | src/app/perfil/actions.ts:19 | counts the leading whitespace: every counted character is whitespace, and the next one is not |
| Text.TrailingSpaces | src/app/perfil/actions.ts:19 | counts the trailing whitespace, in the same way |
| Text.Trim | src/app/perfil/actions.ts:19-34 | `trim()` is the contiguous slice between the leading and trailing whitespace; it is empty or starts and ends with non-whitespace |
| Text.TrimUnchanged | src/app/perfil/actions.ts:19-34 | a string with no whitespace at either end is its own trim |
| Text.TrimIdempotent | src/app/perfil/actions.ts:19-34 | trimming twice is trimming once |
| Text.Upper | src/app/perfil/actions.ts:29-30 | `toUpperCase()` keeps the length and maps each character through the upper-case mapping |
| Text.Lower | src/lib/user-role.ts:100-104 | `toLowerCase()` keeps the length and maps each character through the lower-case mapping |
| Text.UpperKeepsTrimmed | src/app/perfil/actions.ts:29-30 | upper-casing a trimmed string leaves it trimmed |
| Text.UpperIdempotent | src/app/perfil/actions.ts:29-30 | upper-casing twice is upper-casing once |
| Text.LowerIdempotent | src/lib/user-role.ts:100-104 | lower-casing twice is lower-casing once |
| Text.Split | src/lib/user-role.ts:100-101 | `split(',')` gives at least one piece, and no piece contains the separator |
| Text.SplitJoin | src/lib/user-role.ts:100-101 | joining the pieces with the separator gives back the input (round trip) |
| Text.DigitPrefix | src/app/registro/create-profile.ts:32 | the digits `parseInt` reads are a prefix of the input made only of digits |
| Text.ParseInt | src/app/registro/create-profile.ts:32 | `parseInt(s, 10)` is NaN exactly when no digit follows the leading whitespace and the optional sign |
| Text.Decimal | src/app/api/cfdi/request/route.ts:43-47 | a decimal numeral is a non-empty string of digits |
| Text.DecimalValue | src/app/registro/create-profile.ts:32 | a numeral's digit value is the number it spells |
| Text.AllDigitsPrefix | src/app/registro/create-profile.ts:32 | a string made only of digits is its own digit prefix |
| Text.ParseDecimal | src/app/registro/create-profile.ts:32 | `parseInt` reads back every numeral `Decimal` writes (round trip) |
| WebhookLog.HttpStatus | src/app/api/webhooks/stripe/route.ts:13-76 | 200 iff acknowledged or skipped, 400 iff the request was rejected before dispatch, 500 iff the handler threw |
| WebhookLog.BeginProcessing | src/app/api/webhooks/stripe/route.ts:42-52 | the upsert on (processor, event_id) leaves the entry `processing`; a new entry has no error and no processed_at, and an existing entry keeps both |
| WebhookLog.MarkProcessed | src/app/api/webhooks/stripe/route.ts:58-63 | the mark sets the entry `processed` with processed_at = now and touches no other entry |
| WebhookLog.MarkFailed | src/app/api/webhooks/stripe/route.ts:66-73 | the mark sets the entry `failed` with the error message and touches no other entry |
| WebhookLog.Dispatch | src/app/api/webhooks/stripe/route.ts:30-76 | an event already `processed` is skipped with nothing changed; otherwise the response is 200 or 500 according to whether the handler threw |
| WebhookLog.DispatchOutcome | src/app/api/webhooks/conekta/route.ts:56-101 | with both log writes landing, a delivery that is not skipped ends `processed` iff the handler returned, and `failed` otherwise; no other entry moves |
| WebhookLog.SecondDeliverySkipped | src/app/api/webhooks/stripe/route.ts:30-39 | idempotency: after a handled and marked delivery, a redelivery is skipped and changes nothing, whatever its handler would do |
| WebhookLog.LostMarkIsRetried | src/app/api/webhooks/stripe/route.ts:54-65 | when the processed mark is lost, the entry stays `processing` and a retry is not skipped |
| WebhookLog.RetryKeepsStaleError | src/app/api/webhooks/stripe/route.ts:42-62 | a failed event that succeeds on retry ends `processed` but keeps the first error message |
| StripeWebhook.EventType | src/app/api/webhooks/stripe/route.ts:85-257 | the logged event type is one of the five names the switch handles exactly when the event is not an ignored one; an ignored event cannot carry a handled name |
| StripeWebhook.TrialEndsAt | src/app/api/webhooks/stripe/route.ts:115-117 | trial_ends_at is set iff Stripe's trial_end is present and non-zero, and is then that value |
| StripeWebhook.ByStripeId | src/app/api/webhooks/stripe/route.ts:139-143 | a found row exists and carries that Stripe subscription id |
| StripeWebhook.LookupKept | src/app/api/webhooks/stripe/route.ts:139-143 | the lookup by Stripe id depends only on the rows' Stripe ids |
| StripeWebhook.UpsertByStripeId | src/app/api/webhooks/stripe/route.ts:105-120 | the upsert keeps ids fresh and leaves the event log, invoices, audit log and recomputes alone |
| StripeWebhook.UpsertLocates | src/app/api/webhooks/stripe/route.ts:105-120 | afterwards exactly one row carries the Stripe id: the existing row rewritten, or a new row built from the column defaults; no other row changes |
| StripeWebhook.OnCheckoutCompleted | src/app/api/webhooks/stripe/route.ts:86-131 | a non-subscription session, or a session without a user or plan id, changes nothing; a throw changes nothing; the event log and invoices are untouched |
| StripeWebhook.OnPaymentSucceeded | src/app/api/webhooks/stripe/route.ts:133-181 | without a subscription id, or with an unknown one, nothing changes; Stripe ids are kept; at most one invoice is appended |
| StripeWebhook.OnPaymentFailed | src/app/api/webhooks/stripe/route.ts:183-223 | never throws; an unknown subscription changes nothing; the invoices and the event log are untouched |
| StripeWebhook.OnSubscriptionDeleted | src/app/api/webhooks/stripe/route.ts:225-255 | never throws; an unknown subscription changes nothing; the invoices are untouched |
| StripeWebhook.OnSubscriptionUpdated | src/app/api/webhooks/stripe/route.ts:257-285 | an unknown subscription changes nothing; a throw changes nothing; the invoices are untouched |
| StripeWebhook.HandleStripe | src/app/api/webhooks/stripe/route.ts:79-287 | the handler never writes the event log; only a payment appends an invoice; a throw leaves the tables unchanged; unknown event types are ignored |
| StripeWebhook.StripePost | src/app/api/webhooks/stripe/route.ts:9-77 | no signature gives a 400 "No signature", a bad one a 400 "Invalid signature", both with nothing changed; an event already processed changes nothing |
| StripeWebhook.ApplyCheckoutCompleted | src/app/api/webhooks/stripe/route.ts:86-131 | the step-by-step writes leave the store as `OnCheckoutCompleted` says, and throw as it does |
| StripeWebhook.ApplyPaymentSucceeded | src/app/api/webhooks/stripe/route.ts:133-181 | the store afterwards is what `OnPaymentSucceeded` gives |
| StripeWebhook.ApplyPaymentFailed | src/app/api/webhooks/stripe/route.ts:183-223 | the store afterwards is what `OnPaymentFailed` gives |
| StripeWebhook.ApplySubscriptionDeleted | src/app/api/webhooks/stripe/route.ts:225-255 | the store afterwards is what `OnSubscriptionDeleted` gives |
| StripeWebhook.ApplySubscriptionUpdated | src/app/api/webhooks/stripe/route.ts:257-285 | the store afterwards is what `OnSubscriptionUpdated` gives |
| StripeWebhook.HandleStripeEvent | src/app/api/webhooks/stripe/route.ts:79-287 | the store afterwards and the throw are what `HandleStripe` gives |
| StripeWebhook.Post | src/app/api/webhooks/stripe/route.ts:9-77 | the store afterwards and the response are what `StripePost` gives |
| StripeWebhook.SessionWithoutSubscriptionDataIgnored | src/app/api/webhooks/stripe/route.ts:88-97 | a completed session without `subscription_data.metadata` changes nothing, whatever Stripe returns for the subscription |
| StripeWebhook.CheckoutOutcome | src/app/api/webhooks/stripe/route.ts:86-131 | a completed checkout whose `subscription_data.metadata` names a user and a plan leaves exactly one row for the Stripe subscription. It is trialing iff Stripe says trialing, and active otherwise. It is a clinic row iff the metadata has a non-empty clinic id, and is owned by that clinic or by the user. The user's access is recomputed and one audit entry is appended; no other row changes |
| StripeWebhook.PaymentSucceededOutcome | src/app/api/webhooks/stripe/route.ts:133-181 | a payment makes the row active with no grace period and copies Stripe's billing period onto it. It appends exactly one paid Stripe invoice for the row, keeping every earlier invoice: the row's user and clinic, the paid amount, the currency upper-cased (`Upper` of Stripe's), tax defaulting to 0, and the billing period. The row's user is recomputed iff its user_id is truthy |
| StripeWebhook.PaymentFailedGrace | src/app/api/webhooks/stripe/route.ts:199-217 | a failed payment makes the row past_due with a grace end now + plan grace days, or now + 3 days when the plan or its value is missing |
| StripeWebhook.DeletedExpires | src/app/api/webhooks/stripe/route.ts:239-253 | a deletion makes the row expired (never canceled), stamps canceled_at and appends the expiry audit entry |
| StripeWebhook.UpdatedCopiesRawStatus | src/app/api/webhooks/stripe/route.ts:271-279 | the update copies Stripe's status string verbatim, so "unpaid" leaves a row no local status describes |
| StripeWebhook.RedeliverySkipped | src/app/api/webhooks/stripe/route.ts:30-39 | a handled event's redelivery is answered "skipped" and changes nothing |
| StripeWebhook.DeliverPayment | src/app/api/webhooks/stripe/route.ts:42-65 | one payment delivery appends the invoice and acknowledges; if the mark is lost, the event is not recorded as processed |
| StripeWebhook.RetriedPaymentDuplicatesInvoice | src/app/api/webhooks/stripe/route.ts:54-65 | invoices are not deduplicated: when the mark is lost, the retry appends a second invoice with the same processor invoice id |
| StripeWebhook.FailedThenPaidIsActive | src/app/api/webhooks/stripe/route.ts:133-223 | a failure followed by a payment leaves the row active with no grace period |
| StripeWebhook.PaidThenFailedIsPastDue | src/app/api/webhooks/stripe/route.ts:133-223 | a payment followed by a failure leaves the row past_due with a grace period: the last event wins |
| ConektaWebhook.EventType | src/app/api/webhooks/conekta/route.ts:108-252 | the logged event type is one of the four names the switch handles exactly when the event is not an ignored one; an ignored event cannot carry a handled name |
| ConektaWebhook.ByConektaId | src/app/api/webhooks/conekta/route.ts:193-197 | a found row exists and carries that Conekta subscription id |
| ConektaWebhook.InvoiceFirstCharge | src/app/api/webhooks/conekta/route.ts:126-137 | an invoice is appended iff the order has a charge, and it is built from the first charge |
| ConektaWebhook.TrialEnd | src/app/api/webhooks/conekta/route.ts:161-163 | a new row gets a trial end iff its plan's trial_days is present and non-zero |
| ConektaWebhook.OnOrderPaid | src/app/api/webhooks/conekta/route.ts:109-186 | an order without a user or plan id changes nothing; a throw changes nothing; the event log and audit log are untouched; at most one invoice is appended |
| ConektaWebhook.PaidRecomputeTarget | src/app/api/webhooks/conekta/route.ts:211-213 | a recompute happens iff the metadata user or the row's user is truthy; the target is the metadata user whenever it is present, even when empty (`??`) |
| ConektaWebhook.OnSubscriptionPaid | src/app/api/webhooks/conekta/route.ts:188-215 | an unknown subscription changes nothing; a throw changes nothing; nothing else is written outside the subscriptions and recomputes |
| ConektaWebhook.OnPaymentFailed | src/app/api/webhooks/conekta/route.ts:217-250 | an unknown subscription changes nothing; the event log, audit log and invoices are untouched |
| ConektaWebhook.OnCanceled | src/app/api/webhooks/conekta/route.ts:252-272 | an unknown subscription changes nothing; the event log, audit log and invoices are untouched |
| ConektaWebhook.HandleConekta | src/app/api/webhooks/conekta/route.ts:104-274 | the handler never writes the event log or audit log; a throw leaves the tables unchanged; unknown event types are ignored |
| ConektaWebhook.ConektaPost | src/app/api/webhooks/conekta/route.ts:38-102 | a rejected signature gives a 400 "Invalid signature", and unparseable JSON a 400 "Invalid JSON", both with nothing changed; an event already processed changes nothing |
| ConektaWebhook.ApplyOrderPaid | src/app/api/webhooks/conekta/route.ts:109-186 | the store afterwards and the throw are what `OnOrderPaid` gives |
| ConektaWebhook.ApplySubscriptionPaid | src/app/api/webhooks/conekta/route.ts:188-215 | the store afterwards and the throw are what `OnSubscriptionPaid` gives |
| ConektaWebhook.ApplyPaymentFailed | src/app/api/webhooks/conekta/route.ts:217-250 | the store afterwards is what `OnPaymentFailed` gives |
| ConektaWebhook.ApplyCanceled | src/app/api/webhooks/conekta/route.ts:252-272 | the store afterwards is what `OnCanceled` gives |
| ConektaWebhook.HandleConektaEvent | src/app/api/webhooks/conekta/route.ts:104-274 | the store afterwards and the throw are what `HandleConekta` gives |
| ConektaWebhook.Post | src/app/api/webhooks/conekta/route.ts:38-102 | the store afterwards and the response are what `ConektaPost` gives |
| ConektaWebhook.DispatchEvent | src/app/api/webhooks/conekta/route.ts:56-101 | the gate and log around the handler leave the store as `Dispatch` of `HandleConekta` says |
| ConektaWebhook.SignatureGate | src/app/api/webhooks/conekta/route.ts:6-9 | with a secret set, a request passes iff the header equals the hex MAC of the raw body; with the secret unset or empty, every request passes |
| ConektaWebhook.OrderPaidExistingOutcome | src/app/api/webhooks/conekta/route.ts:118-137 | a paid order that names a subscription makes that row active with no grace period. It appends one paid Conekta invoice iff the order has a charge, recomputes the buyer, and creates no row |
| ConektaWebhook.OrderPaidNewOutcome | src/app/api/webhooks/conekta/route.ts:138-181 | a paid order without a subscription id inserts one active monthly Conekta row under a fresh id, ending one month after now. It has a trial end iff the plan's trial_days is truthy. The invoice follows iff the order has a charge; a lost insert writes neither |
| ConektaWebhook.PaidRecomputesEmptyMetadataUser | src/app/api/webhooks/conekta/route.ts:211-213 | an empty metadata user id passes the `\|\|` test on the strength of the row's user, yet the recompute is called for "" |
| ConektaWebhook.SubscriptionEventOutcomes | src/app/api/webhooks/conekta/route.ts:188-272 | on a known subscription: paid gives active with no grace period and Conekta's periods; payment_failed gives past_due with the plan's grace end; canceled gives canceled with canceled_at = now |
| ConektaWebhook.ProcessorsEndDifferently | src/app/api/webhooks/conekta/route.ts:263-266 | Stripe's deletion leaves the row expired, Conekta's cancellation leaves it canceled |
| ConektaWebhook.RedeliverySkipped | src/app/api/webhooks/conekta/route.ts:56-66 | a handled and marked Conekta event is skipped on redelivery, with nothing changed |
| Reconcile.MapStripeStatus | src/app/api/reconcile/route.ts:124-136 | unpaid and paused map to past_due, incomplete_expired to expired, and any Stripe status the switch does not name to expired |
| Reconcile.MapStripeStatusKeepsLocalNames | src/app/api/reconcile/route.ts:124-136 | every local status except expired maps back to itself |
| Reconcile.MapStripeStatusOfExpired | src/app/api/reconcile/route.ts:124-136 | "expired" is not a Stripe status and falls to the default, expired |
| Reconcile.UnsetSecretAcceptsUndefined | src/app/api/reconcile/route.ts:15-18 | with CRON_SECRET unset, the header "Bearer undefined" is accepted |
| Reconcile.Pass | src/app/api/reconcile/route.ts:32-115 | a pass changes only the subscriptions and the recomputes |
| Reconcile.PassCovers | src/app/api/reconcile/route.ts:32-115 | visiting any superset of the rows the rule applies to is the whole pass |
| Reconcile.PassStep | src/app/api/reconcile/route.ts:77-87 | one more visited row is rewritten iff the rule applies to it |
| Reconcile.UsersStep | src/app/api/reconcile/route.ts:83-85 | one more visited row adds its user to the recomputes iff the rule applies and the user is truthy |
| Reconcile.VisitStripeRow | src/app/api/reconcile/route.ts:33-67 | one step-1 row: it is rewritten with Stripe's status, periods and cancel flag iff retrieval succeeded, the status drifted and the periods are dates; it is an error iff retrieval threw or a drifted row's periods are not dates |
| Reconcile.PassSkip | src/app/api/reconcile/route.ts:104 | visiting a row the rule does not apply to, such as a free-plan trial, changes nothing |
| Reconcile.ReconcileOne | src/app/api/reconcile/route.ts:32-68 | one loop iteration keeps the step-1 invariant: store and counters are the pass over the visited rows |
| Reconcile.ReconcileStripe | src/app/api/reconcile/route.ts:24-68 | step 1 leaves the store as the resync pass over all selected rows. `checked` counts the selected rows, `updated` the rewritten ones and `errors` the failed ones |
| Reconcile.ExpireRow | src/app/api/reconcile/route.ts:77-87 | expiring one row keeps the pass invariant and counts it |
| Reconcile.ExpireGracePeriods | src/app/api/reconcile/route.ts:70-87 | step 2 expires exactly the past_due rows whose grace end is before now, recomputes their users and counts them |
| Reconcile.ExpireTrials | src/app/api/reconcile/route.ts:89-115 | step 3 expires exactly the self-managed trials that ended before now and are not on a free plan, recomputes their users and counts them |
| Reconcile.HttpStatus | src/app/api/reconcile/route.ts:16-121 | 401 iff unauthorised, 200 iff the sweep ran |
| Reconcile.RunSweep | src/app/api/reconcile/route.ts:24-115 | the three steps in order leave the store and counters as `Sweep` says |
| Reconcile.Post | src/app/api/reconcile/route.ts:13-122 | without the secret: 401 and nothing changed; with it: the sweep's tables and counters |
| Reconcile.SweepRows | src/app/api/reconcile/route.ts:24-115 | the sweep keeps the keys and plans and maps each row independently through the three steps |
| Reconcile.GraceStepClears | src/app/api/reconcile/route.ts:70-87 | after steps 2 and 3 no row has an elapsed grace period |
| Reconcile.TrialStepClears | src/app/api/reconcile/route.ts:89-115 | after step 3, step 3 no longer applies to the row |
| Reconcile.SweepExpiresEndedGrace | src/app/api/reconcile/route.ts:70-87 | after a sweep, no row is past_due with a grace end before now |
| Reconcile.SweepExpiresEndedTrials | src/app/api/reconcile/route.ts:89-115 | after a sweep, no self-managed trial that ended before now is left trialing unless its plan is free |
| Reconcile.FreeTrialRowUntouched | src/app/api/reconcile/route.ts:104 | a trialing, self-managed, free-plan row passes through the sweep unchanged |
| Reconcile.FreeTrialsNeverExpire | src/app/api/reconcile/route.ts:104 | free-plan trials are never expired, however long ago they ended |
| Reconcile.UnknownStatusRowUntouched | src/app/api/reconcile/route.ts:25-30 | a row whose status is outside the enum (such as Stripe's "unpaid") is selected by no step |
| Reconcile.UnknownStatusNeverRepaired | src/app/api/reconcile/route.ts:25-95 | the sweep never repairs such a row |
| Reconcile.ResyncSettles | src/app/api/reconcile/route.ts:41-53 | a resynced row carries Stripe's status, so step 1 does not rewrite it again |
| Reconcile.SweptRowSettled | src/app/api/reconcile/route.ts:24-115 | after a sweep, none of the three steps applies to any row |
| Reconcile.PassIdle | src/app/api/reconcile/route.ts:32-115 | a pass whose rule applies to no row changes nothing and counts nothing |
| Reconcile.SweepIdempotent | src/app/api/reconcile/route.ts:13-122 | with the same Stripe answers and the same now, a second sweep changes nothing and reports 0 updated |
| Reconcile.SweepOfSettled | src/app/api/reconcile/route.ts:13-122 | a sweep over settled tables changes nothing and reports 0 updated |
| Reconcile.StripeCountsBounded | src/app/api/reconcile/route.ts:32-68 | in step 1, updated + errors <= checked |
| Checkout.HttpStatus | src/app/api/checkout/route.ts:13-124 | 200 iff the free plan started or a session was created; 400 iff the user is already subscribed or the price is missing |
| Checkout.Post | src/app/api/checkout/route.ts:9-125 | the picked customer row is a possible answer to the query, and the store and response are what the route function gives |
| Checkout.FreePlanInsertsOneRow | src/app/api/checkout/route.ts:38-66 | only the free plan writes: one active, processor-free, free-interval user row, plus the recompute |
| Checkout.FreePlanRefusedWhenActive | src/app/api/checkout/route.ts:40-50 | a user with an active subscription is refused the free plan and nothing is written |
| Checkout.PriceSelection | src/app/api/checkout/route.ts:68-75 | the annual price is used iff the request says annual; a missing or empty price gives a 400 |
| Checkout.CustomerReuse | src/app/api/checkout/route.ts:77-96 | an existing customer id is reused; a customer is created, with the user's id in its metadata, only when there is no row or the row's id is empty |
| Checkout.NoCustomerRowCreatesCustomer | src/app/api/checkout/route.ts:79-96 | with no customer row at all, a new customer is always created |
| Checkout.SessionTrialAndProcessor | src/app/api/checkout/route.ts:99-124 | the trial length defaults to 14 days; a paid plan over any processor but Stripe gets a 501 |
| Checkout.EarlyExits | src/app/api/checkout/route.ts:13-36 | an unauthenticated caller gets 401 and an unknown or inactive plan slug gets 404, with nothing written |
| Checkout.MetadataReachesWebhook | src/app/api/checkout/route.ts:104-113 | the metadata the route sends as `subscription_data.metadata` would pass the webhook's user and plan guard, and would record a clinic iff the request named a non-empty clinic id |
| SubscriptionToggles.HttpStatus | src/app/api/subscription/cancel/route.ts:13-55 | 200 iff toggled; 400 iff there is no subscription to toggle |
| SubscriptionToggles.LatestExists | src/app/api/subscription/cancel/route.ts:20-27 | the newest-first `.limit(1)` query always has an answer |
| SubscriptionToggles.NewestExists | src/app/api/subscription/cancel/route.ts:25 | a non-empty set of rows has a newest member |
| SubscriptionToggles.Post | src/app/api/subscription/reactivate/route.ts:13-56 | the row picked is the newest candidate, and the store and response are what the route function gives |
| SubscriptionToggles.UnauthenticatedRefused | src/app/api/subscription/cancel/route.ts:15-18 | an unauthenticated caller gets 401 from cancel and from reactivate, with nothing written |
| SubscriptionToggles.ToggleWritesOnlyTheFlag | src/app/api/subscription/cancel/route.ts:36-47 | a successful toggle sends Stripe the picked row's subscription id and writes only that row's cancel flag; any other outcome writes nothing |
| SubscriptionToggles.NothingToReactivate | src/app/api/subscription/reactivate/route.ts:20-35 | reactivate answers 400 when none of the user's live rows is scheduled to end |
| SubscriptionToggles.NewestWithoutStripeIdBlocks | src/app/api/subscription/cancel/route.ts:20-34 | only the newest candidate is looked at: if it has no Stripe id, the answer is 400 even when an older candidate has one |
| SubscriptionToggles.CancelThenReactivate | src/app/api/subscription/reactivate/route.ts:20-47 | cancel and then reactivate restore the store |
| SubscriptionToggles.CancelIdempotent | src/app/api/subscription/cancel/route.ts:20-47 | cancelling twice is the same as cancelling once |
| UserRole.SlugToDashboardRoleCases | src/lib/user-role.ts:12-17 | exactly which slugs give which role ("empresa" and "empresa_admin" give empresa_admin; anything else gives doctor) |
| UserRole.SlugOfRoleName | src/lib/user-role.ts:12-17 | every role's own name maps back to it |
| UserRole.DashboardRoute | src/lib/user-role.ts:22-35 | every route lies under /dashboard/ |
| UserRole.DashboardRouteInjective | src/lib/user-role.ts:22-35 | distinct roles land on distinct dashboards |
| UserRole.CleanEmails | src/lib/user-role.ts:100-103 | the cleaned list has no blank entry and no more entries than there are pieces |
| UserRole.CleanEmailsMembers | src/lib/user-role.ts:100-103 | an address is in the cleaned list iff it is the trimmed, lower-cased form of some piece and is non-empty |
| UserRole.IsAdminUserCases | src/lib/user-role.ts:95-105 | admin iff super_admin, or the lower-cased email is a non-empty cleaned ADMIN_EMAILS entry |
| UserRole.NoEmailOnlySuperAdmin | src/lib/user-role.ts:95-105 | without an email only a super admin is an admin, whatever ADMIN_EMAILS holds |
| UserRole.MetadataPriority | src/lib/user-role.ts:84-90 | the app role wins whenever it is set; an app role that is set but not a string hides the user role |
| UserRole.FirstStringRole | src/lib/user-role.ts:45-57 | a found role is the string role of some column, and every earlier column gave none; no role means no column gave one |
| UserRole.RoleFromProfiles | src/lib/user-role.ts:41-58 | tries `id`, then `uuid`, and returns the first string role found; a failed query, a missing row or a non-string role moves on |
| UserRole.GetUserRole | src/lib/user-role.ts:112-129 | metadata first, then profiles, then the user type slug; only admin roles stop the chain |
| UserRole.ResolveRolePriority | src/lib/user-role.ts:112-129 | the role comes from the first source that names an admin role; the user is a doctor iff no source names one |
| UserRole.EmpresaOnlyAsSlug | src/lib/user-role.ts:118-128 | "empresa" from metadata or profiles is not a role; only the slug maps it |
| Middleware.RolePathsAgree | src/middleware.ts:8-13 | the middleware's role-path table agrees with `getDashboardRoute` |
| Middleware.SignedOutOnlyToLogin | src/middleware.ts:66-71 | a signed-out visitor is only ever redirected to /login, carrying the page asked for |
| Middleware.SignedInLeavesAuthPages | src/middleware.ts:55-64 | a signed-in user on /login or /registro goes to their dashboard, or to the doctor's when the lookup failed |
| Middleware.SecondCharExcludes | src/middleware.ts:5-6 | a path whose second character differs from every prefix's is under none of the prefixes |
| Middleware.DashboardPathClassified | src/middleware.ts:5-6 | a path under /dashboard/ is neither an auth page nor /admin |
| Middleware.DashboardGuard | src/middleware.ts:84-95 | under /dashboard/, a user with a known role passes iff the path is under their dashboard, and is redirected there otherwise |
| Middleware.AdminGuard | src/middleware.ts:97-114 | /admin admits a signed-in user iff `isAdminUser` holds for their role and email |
| Middleware.RedirectTargetsAreStable | src/middleware.ts:15-117 | no redirect loops: following a redirect with the same session and lookup outcome lets the request through |
| Trust.ConfigLevelMatchesKey | src/lib/trust.ts:18-71 | every entry of the table is filed under its own level |
| Trust.ConfigLabelIsLevelLabel | src/lib/trust.ts:18-71 | every entry's label is the level's label |
| Trust.CanPerformIffThreshold | src/lib/trust.ts:77-90 | an action is allowed iff the level is at least the action's threshold; unknown names are never allowed |
| Trust.AllowsIffThreshold | src/lib/trust.ts:18-71 | each level's capability flags are exactly the thresholds |
| Trust.CapabilitiesMonotone | src/lib/trust.ts:18-90 | raising the level never takes a capability away |
| Trust.ActionNameRoundTrip | src/lib/trust.ts:79-88 | each action's name is read back as that action |
| Trust.AlertOnlyBelowVerified | src/lib/trust.ts:18-71 | only level 3 has no alert |
| Trust.NextActionBelowReview | src/lib/trust.ts:92-107 | a next step is offered iff the level is below 2, and it leads to /perfil |
| AdminActions.Approve | src/app/admin/actions.ts:10-62 | the store and result are what the approve function gives |
| AdminActions.Reject | src/app/admin/actions.ts:64-95 | the store and result are what the reject function gives |
| AdminActions.OnlyAdminsReview | src/app/admin/actions.ts:13-20 | a signed-out caller or a non-admin gets an error (not-authenticated iff signed out) and changes nothing |
| AdminActions.ApproveEffect | src/app/admin/actions.ts:24-61 | approval writes only a pending verification whose lookup reported no error; a lookup error or a missing pending row answers "not found". The row is verified by the caller at now, with notes and reason cleared. The professional is raised to trust 3 unless that write fails, in which case the caller is told |
| AdminActions.RejectEffect | src/app/admin/actions.ts:79-94 | rejection writes only a pending row, with the reason defaulting only when none is given, and answers success whether or not a row matched |
| AdminActions.ReviewIsFinal | src/app/admin/actions.ts:24-33 | once approved or rejected, approving again finds nothing and rejecting again changes nothing |
| CfdiRequest.HttpStatus | src/app/api/cfdi/request/route.ts:10-133 | 403 iff the trust level is too low or the caller is not the owner; 400 iff the id, the RFC or the paid status is missing; 501 iff coming soon; 502 iff the provider answered non-OK |
| CfdiRequest.FindInvoice | src/app/api/cfdi/request/route.ts:43-51 | a found invoice exists and its numeral is the parameter |
| CfdiRequest.FindInvoiceExact | src/app/api/cfdi/request/route.ts:43-51 | an invoice is found iff the parameter is exactly its numeral |
| CfdiRequest.Guard | src/app/api/cfdi/request/route.ts:13-73 | the request goes on to the provider only for a signed-in caller at trust 3 or more, with an RFC and an API key, and for their own paid invoice that has no CFDI yet; 401 iff signed out, and the missing-id 400 iff signed in without an id |
| CfdiRequest.Get | src/app/api/cfdi/request/route.ts:10-133 | the store and response are what the route function gives |
| CfdiRequest.ProfileChecksComeFirst | src/app/api/cfdi/request/route.ts:22-41 | a caller below trust 3, or with no profile or no RFC, is refused whatever the invoices hold |
| CfdiRequest.OnlyIssuanceWrites | src/app/api/cfdi/request/route.ts:100-125 | only a provider answer with a non-empty id writes, and only the CFDI columns of the caller's own paid invoice |
| CfdiRequest.IssuedInvoiceNotReissued | src/app/api/cfdi/request/route.ts:61-63 | an invoice with a CFDI is redirected without writing, whatever the key and the provider |
| CfdiRequest.RequestIdempotent | src/app/api/cfdi/request/route.ts:61-125 | a second request after a successful issuance changes nothing |
| CfdiRequest.KeyAndIdQuirks | src/app/api/cfdi/request/route.ts:65-112 | a request that would reach the provider with a key gets 501 `CFDI_COMING_SOON` with no write when the key is unset; an answer whose id is present but empty hides its uuid, so nothing is written |
| CfdiRequest.InvoiceChecksInOrder | src/app/api/cfdi/request/route.ts:43-73 | after the profile checks: no invoice with that id is 404, another user's invoice 403, an unpaid one 400, one with a CFDI a redirect, no key 501, and otherwise the request proceeds with that invoice |
| CfdiRequest.EligibleProceeds | src/app/api/cfdi/request/route.ts:13-73 | a request for invoice i reaches the provider iff the caller owns it, it is paid without a CFDI, the caller is at trust 3 with an RFC, and a key is set; without the key it is 501 |
| CfdiRequest.EligibleRequestOutcome | src/app/api/cfdi/request/route.ts:75-133 | for an eligible request with a key: an answer with a non-empty id or uuid writes exactly the CFDI columns of that invoice and redirects; an answer without one redirects with no write; non-OK is 502 and a thrown call 500, both with no write |
| ProfileActions.TextField | src/app/perfil/actions.ts:19-23 | `v?.trim() \|\| null`: present iff the trimmed value is non-empty, and then it is the trimmed value |
| ProfileActions.UpperField | src/app/perfil/actions.ts:29-30 | like `TextField`, with the value upper-cased |
| ProfileActions.Dashify | src/app/perfil/actions.ts:34 | every character outside a-z, 0-9 and '-' becomes '-', every other character is kept, and so is the length |
| ProfileActions.CollapseHyphens | src/app/perfil/actions.ts:34 | no "--" is left, the slug alphabet and the first character are kept, and a string without "--" is unchanged |
| ProfileActions.CollapseKeepsContent | src/app/perfil/actions.ts:34 | the collapse keeps the non-hyphen characters in order, and keeps a hyphen before exactly those characters (and at the end) where the input had a run of them |
| ProfileActions.MarksDetermine | src/app/perfil/actions.ts:34 | two strings without "--" that have the same non-hyphen characters and the same hyphen places are equal |
| ProfileActions.CollapseHyphensCharacterised | src/app/perfil/actions.ts:34 | the collapse is the one string without "--" that keeps the input's non-hyphen characters and hyphen places, in both directions |
| ProfileActions.SliceKeepsShape | src/app/perfil/actions.ts:34 | a slice keeps the slug alphabet and the absence of "--" |
| ProfileActions.StripShape | src/app/perfil/actions.ts:34 | stripping one hyphen from each end of a string without "--" leaves no hyphen at either end |
| ProfileActions.SlugFieldShape | src/app/perfil/actions.ts:34 | every stored slug is non-empty, over a-z0-9-, without "--" and without a hyphen at either end |
| ProfileActions.SlugAlphabetFixed | src/app/perfil/actions.ts:34 | lower-casing and dashing leave a string over the slug alphabet unchanged |
| ProfileActions.SlugFixedPoint | src/app/perfil/actions.ts:34 | a finished slug passes through the normalisation unchanged |
| ProfileActions.SlugIdempotent | src/app/perfil/actions.ts:34 | normalising a stored slug again gives the same slug |
| ProfileActions.FieldsIdempotent | src/app/perfil/actions.ts:19-33 | re-saving a normalised text field, RFC or CURP leaves it as it is |
| ProfileActions.YearFieldReadsNumerals | src/app/perfil/actions.ts:24-28 | a year typed as a plain numeral is stored as that number, and a blank one as null |
| ProfileActions.UpdateProfile | src/app/perfil/actions.ts:11-65 | the store and result are what the route function gives |
| ProfileActions.UpdateProfileEffect | src/app/perfil/actions.ts:11-65 | saving writes exactly the caller's row. Trust level, user type and stage are kept on an existing row, and a new row starts at trust 0 |
| CreateProfile.CreateFromOnboarding | src/app/registro/create-profile.ts:20-60 | the store and result are what the route function gives |
| CreateProfile.GradYearWindow | src/app/registro/create-profile.ts:32-33 | a stored graduation year lies in [1970, current year] and is what `parseInt` read; an empty value gives null |
| CreateProfile.DigitPrefixStopsAtText | src/app/registro/create-profile.ts:32 | the digits in front of a non-digit are exactly the numeral |
| CreateProfile.YearNumeralWithTrailingText | src/app/registro/create-profile.ts:32-43 | a numeral followed by non-digit text ("1990abc") is kept iff its value is in [1970, current year] |
| CreateProfile.CreateEffect | src/app/registro/create-profile.ts:35-57 | success iff the upsert succeeds. Only the caller's row is written, at trust 1 whatever it was. Empty strings become null. Columns the form lacks are kept, or defaulted on a new row |
| CreateProfile.UserTypeFound | src/app/registro/create-profile.ts:26-38 | a slug carried by exactly one user type records that type's id |
| CreateProfile.UnknownUserType | src/app/registro/create-profile.ts:26-38 | an unknown slug leaves the user type null |
| Constants.StatesDistinct | src/lib/constants.ts:3-36 | there are 32 states, with pairwise distinct codes |
| Constants.TrustLabelsCoverLevels | src/lib/constants.ts:96-101 | there is a label for exactly the levels 0-3 |
| Constants.TrustLabelsMatchConfig | src/lib/constants.ts:96-101 | the public label equals the trust table's label iff the level is not 2 |
| Constants.LabelsAgreeOutsideReview | src/lib/constants.ts:96-101 | the two label tables agree at levels 0, 1 and 3 and differ at 2 |
| Constants.RfcShape | src/lib/constants.ts:114 | an accepted RFC has 12 or 13 characters; the length decides the letter part, and the last nine are six digits and three alphanumerics |
| Constants.RfcSurvivesUpperCasing | src/lib/constants.ts:114 | an accepted RFC is unchanged by the profile form's trim and upper-casing |
| Constants.CurpFields | src/lib/constants.ts:115 | an accepted CURP has 18 characters, a month in 1-12, a day in 1-31 and sex H or M |
| Constants.MonthDigitsExact | src/lib/constants.ts:115 | the month and day digit classes accept exactly the numeric ranges |
| Constants.CurpAcceptsFebruary31 | src/lib/constants.ts:115 | the pattern accepts a 31st of February |
| Constants.CurpSurvivesUpperCasing | src/lib/constants.ts:115 | an accepted CURP is unchanged by trim and upper-casing |
| Constants.AlphanumericSurvives | src/lib/constants.ts:114-115 | upper-case letters and digits are unchanged by trim and upper-casing |
| Constants.DecimalLength | src/lib/constants.ts:116 | a numeral has at most k digits iff its value is below 10^k |
| Constants.CedulaNumerals | src/lib/constants.ts:116 | a numeral without leading zeros is an accepted cédula iff its value is between 1000000 and 99999999 |

## Left out

- Text case mapping covers ASCII and ñ only. Unicode case folding and normalisation are not
  modelled.
- Text.ParseInt: digit runs are read as unbounded integers. JavaScript turns very long runs
  into floating point (eventually `Infinity`), and that is not modelled.
- Supabase errors are modelled only where the code branches on them. The code ignores a
  failed local update in cancel/reactivate, a failed CFDI column update, and failed
  recomputes and audit inserts; the model does the same. The lookup error in
  `approveLicenseVerification` is a parameter and answers "not found" with no change.
- Reconcile: query errors in the sweep are not modelled; every step reads every row. On
  such an error the source reads no rows (`?? []`) and the step does nothing.
- The HMAC-SHA256 computation is a function parameter, as is Stripe's `constructEvent`
  check. Cryptography is out of scope.
- Dates are whole seconds. A day is 86400 seconds. "One month later" (`setMonth(+1)`) is a
  parameter, because calendar arithmetic is out of scope.
- Each request reads a single `now`. The source calls `new Date()` several times within
  one request.
- Concurrency is not modelled: two deliveries of one event that overlap, and sweeps that
  overlap, run one at a time in the model.
- The order of rows with equal `created_at` (in cancel/reactivate) and of the checkout
  customer row is a nondeterministic pick, because the database does not fix it.
- Invoice ids are the invoice's position, written as a decimal numeral. UUIDs are not
  modelled.
- The body sent to Facturapi and the HTTP transport are not modelled. Only the answer's
  id, uuid, PDF and XML fields matter.
- Stripe customer and session creation are not modelled beyond the request the route sends.
- Checkout.MetadataReachesWebhook: it states what the metadata the route sends would do at
  the webhook, not that it arrives. The webhook reads `session.subscription_data.metadata`
  (src/app/api/webhooks/stripe/route.ts:90) through an untyped cast, and Stripe's completed
  Checkout Session object has no `subscription_data` field; the metadata passed there is
  attached to the Subscription instead. The model assumes nothing about what Stripe delivers:
  a session without the field is ignored (StripeWebhook.SessionWithoutSubscriptionDataIgnored),
  and StripeWebhook.CheckoutOutcome holds only for a session that carries it.
- The role lookup `getUserRole` is a parameter to the middleware and the admin actions.
  Its resolution is modelled separately in UserRole.
- The answer of `getUserTypeSlug` (src/lib/user-role.ts:64-78) is a parameter. Supabase's
  join is not modelled.
- The `user_types` table is a parameter of profile creation.
- Middleware cookie handling and the Supabase client setup are not modelled.
  `revalidatePath`, `console` logging and the JSON body texts are not modelled either,
  beyond the error texts the webhooks return.
- SAT_REGIMES, SPECIALTIES, USER_TYPE_LABELS and PLAN_BADGES in src/lib/constants.ts hold
  display data only, and are not part of this model.
- `recompute_user_product_access` is a database function whose body is not part of this
  model. It is recorded as a set of users it was called for.
