/** Enumerations and row shapes of the billing and profile tables (src/types/database.ts). */
module Database {

  datatype Option<+T> = None | Some(value: T)

  /** A string column read with JavaScript truthiness: absent or empty is false. */
  predicate Truthy(o: Option<string>) {
    o.Some? && o.value != ""
  }

  /** The `x || null` idiom: keep a non-empty string, turn "" or absence into null. */
  function OrNull(o: Option<string>): (r: Option<string>)
    ensures r.Some? <==> Truthy(o)
    ensures r.Some? ==> r == o
  {
    if Truthy(o) then o else None
  }

  /** Timestamps are whole seconds since the epoch. */
  type Timestamp = int
  const DaySeconds: int := 86400

  type SubId = nat
  type UserId = string

  // ---------------------------------------------------------------------------
  // Subscription status: exactly six values, stored in the row as their names.

  datatype SubscriptionStatus = Trialing | Active | PastDue | Canceled | Expired | Incomplete

  function StatusName(s: SubscriptionStatus): string {
    match s
    case Trialing => "trialing"
    case Active => "active"
    case PastDue => "past_due"
    case Canceled => "canceled"
    case Expired => "expired"
    case Incomplete => "incomplete"
  }

  function ParseStatus(t: string): Option<SubscriptionStatus> {
    if t == "trialing" then Some(Trialing)
    else if t == "active" then Some(Active)
    else if t == "past_due" then Some(PastDue)
    else if t == "canceled" then Some(Canceled)
    else if t == "expired" then Some(Expired)
    else if t == "incomplete" then Some(Incomplete)
    else None
  }

  /** A stored status string denotes status `s` exactly when it is the name of `s`. */
  lemma ParseStatusExact(t: string, s: SubscriptionStatus)
    ensures ParseStatus(t) == Some(s) <==> t == StatusName(s)
  {
    match s
    case Trialing =>
    case Active =>
    case PastDue =>
    case Canceled =>
    case Expired =>
    case Incomplete =>
  }

  /** Distinct statuses have distinct names, so a status string never means two statuses. */
  lemma StatusNameInjective(a: SubscriptionStatus, b: SubscriptionStatus)
    ensures StatusName(a) == StatusName(b) ==> a == b
  {
    ParseStatusExact(StatusName(a), a);
    ParseStatusExact(StatusName(a), b);
  }

  // ---------------------------------------------------------------------------
  // Trust level 0..3.

  type TrustLevel = x: int | 0 <= x <= 3

  // ---------------------------------------------------------------------------
  // Billing interval: a plan may be lifetime, a subscription row may not.

  datatype BillingInterval = Monthly | Annual | Lifetime | Free

  function IntervalName(b: BillingInterval): string {
    match b
    case Monthly => "monthly"
    case Annual => "annual"
    case Lifetime => "lifetime"
    case Free => "free"
  }

  /** The interval vocabulary of a subscription row: monthly, annual or free. */
  function ParseRowInterval(t: string): (r: Option<BillingInterval>)
    ensures r.Some? ==> r.value != Lifetime && IntervalName(r.value) == t
  {
    if t == "monthly" then Some(Monthly)
    else if t == "annual" then Some(Annual)
    else if t == "free" then Some(Free)
    else None
  }

  lemma RowIntervalExact(b: BillingInterval)
    ensures ParseRowInterval(IntervalName(b)).Some? <==> b != Lifetime
  {
    match b
    case Monthly =>
    case Annual =>
    case Lifetime =>
    case Free =>
  }

  // ---------------------------------------------------------------------------
  // Small closed vocabularies.

  datatype Processor = Stripe | Conekta
  datatype SubscriberType = User | Clinic
  datatype InvoiceStatus = Pending | Paid | Failed | Refunded | Voided
  datatype EventStatus = Received | Processing | Processed | Failed | Skipped
  datatype VerificationStatus = Pending | Verified | Rejected | NeedsReview

  // ---------------------------------------------------------------------------
  // Rows.

  datatype Subscription = Subscription(
    subscriberType: SubscriberType,
    userId: Option<UserId>,
    clinicId: Option<string>,
    planId: string,
    status: string,
    billingInterval: string,
    trialEndsAt: Option<Timestamp>,
    graceEndsAt: Option<Timestamp>,
    periodStart: Option<Timestamp>,
    periodEnd: Option<Timestamp>,
    cancelAtPeriodEnd: bool,
    canceledAt: Option<Timestamp>,
    processor: Option<Processor>,
    stripeSubId: Option<string>,
    stripeCustomerId: Option<string>,
    conektaSubId: Option<string>,
    conektaCustomerId: Option<string>,
    createdAt: Timestamp)

  /** The row agrees with its declared column types: a known status and a row interval. */
  predicate WellTyped(row: Subscription) {
    ParseStatus(row.status).Some? && ParseRowInterval(row.billingInterval).Some?
  }

  predicate HasStatus(row: Subscription, s: SubscriptionStatus) {
    row.status == StatusName(s)
  }

  datatype Plan = Plan(
    slug: string,
    billingInterval: BillingInterval,
    isActive: bool,
    stripePriceId: Option<string>,
    stripePriceIdAnnual: Option<string>,
    gracePeriodDays: Option<int>,
    trialDays: Option<int>)

  datatype CfdiFields = CfdiFields(
    uuid: Option<string>,
    facturapiId: Option<string>,
    requestedAt: Option<Timestamp>,
    pdfUrl: Option<string>,
    xmlUrl: Option<string>)

  const NoCfdi: CfdiFields := CfdiFields(None, None, None, None, None)

  datatype Invoice = Invoice(
    subscriptionId: SubId,
    userId: Option<UserId>,
    clinicId: Option<string>,
    amountCents: int,
    currency: string,
    taxCents: int,
    status: InvoiceStatus,
    processor: Option<Processor>,
    processorInvoiceId: Option<string>,
    periodStart: Option<Timestamp>,
    periodEnd: Option<Timestamp>,
    cfdi: CfdiFields)

  /** The idempotency key of the webhook log. */
  datatype EventKey = EventKey(processor: Processor, eventId: string)

  datatype WebhookEvent = WebhookEvent(
    eventType: string,
    status: EventStatus,
    errorMessage: Option<string>,
    processedAt: Option<Timestamp>)

  datatype AuditEntry = AuditEntry(actorId: Option<UserId>, action: string, targetId: Option<SubId>)

  datatype LicenseVerification = LicenseVerification(
    profileId: UserId,
    status: VerificationStatus,
    verifiedAt: Option<Timestamp>,
    verifiedBy: Option<UserId>,
    reviewNotes: Option<string>,
    rejectionReason: Option<string>)

  datatype ProfessionalProfile = ProfessionalProfile(
    userTypeId: Option<string>,
    professionalStage: Option<string>,
    cedulaProfesional: Option<string>,
    cedulaEspecialidad: Option<string>,
    specialty: Option<string>,
    subspecialty: Option<string>,
    institutionAffiliation: Option<string>,
    graduationYear: Option<int>,
    trustLevel: TrustLevel,
    curp: Option<string>,
    rfc: Option<string>,
    regionCode: Option<string>,
    publicProfileSlug: Option<string>,
    profilePhotoUrl: Option<string>,
    bio: Option<string>,
    isPublicProfile: bool)

  /** The row a profile upsert starts from when the user has none; trust_level's column default is 0. */
  const BlankProfile: ProfessionalProfile :=
    ProfessionalProfile(None, None, None, None, None, None, None, None, 0, None, None, None, None, None, None, false)
}
