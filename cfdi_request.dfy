/**
 * The CFDI (Mexican tax invoice) request (src/app/api/cfdi/request/route.ts): an ordered
 * chain of guards over the caller, their professional profile and the invoice, then one
 * call to the invoicing provider whose answer, when it carries an id, is written to the
 * invoice's CFDI columns.
 *
 * Invoices are numbered by their position in the invoices table, and the `invoice` query
 * parameter names one by the decimal numeral of that position. The provider's answer is a
 * parameter.
 */
module CfdiRequest {
  import opened Database
  import opened Store
  import opened Text

  datatype CfdiResponse =
    | NotAuthenticated
    | MissingInvoiceId
    | TrustTooLow
    | MissingRfc
    | InvoiceNotFound
    | NotOwner
    | NotPaid
    | RedirectToBilling
    | ComingSoon
    | ProviderRejected
    | ProviderFailed

  function HttpStatus(r: CfdiResponse): (code: int)
    ensures code == 403 <==> r == TrustTooLow || r == NotOwner
    ensures code == 400 <==> r == MissingInvoiceId || r == MissingRfc || r == NotPaid
    ensures code == 501 <==> r == ComingSoon
    ensures code == 502 <==> r == ProviderRejected
  {
    match r
    case NotAuthenticated => 401
    case MissingInvoiceId => 400
    case TrustTooLow => 403
    case MissingRfc => 400
    case InvoiceNotFound => 404
    case NotOwner => 403
    case NotPaid => 400
    case RedirectToBilling => 307
    case ComingSoon => 501
    case ProviderRejected => 502
    case ProviderFailed => 500
  }

  /** The error code the 501 body carries. */
  const ComingSoonCode: string := "CFDI_COMING_SOON"

  /** The invoice the parameter names: the one whose position it spells. */
  function FindInvoice(invoices: seq<Invoice>, param: string): (r: Option<nat>)
    ensures r.Some? ==> r.value < |invoices| && Decimal(r.value) == param
  {
    var n := ParseInt(param);
    if n.Some? && 0 <= n.value < |invoices| && Decimal(n.value) == param then Some(n.value) else None
  }

  /** Every invoice is found by its own numeral, and by nothing else. */
  lemma FindInvoiceExact(invoices: seq<Invoice>, param: string, i: nat)
    ensures FindInvoice(invoices, param) == Some(i) <==> i < |invoices| && Decimal(i) == param
  {
    if i < |invoices| && Decimal(i) == param {
      ParseDecimal(i);
    }
  }

  /** `profile?.trust_level ?? 0`: a caller without a profile counts as level 0. */
  function CallerTrust(profiles: map<UserId, ProfessionalProfile>, user: UserId): int {
    if user in profiles then profiles[user].trustLevel else 0
  }

  /** `profile?.rfc?.trim()` is non-empty. */
  predicate HasRfc(profiles: map<UserId, ProfessionalProfile>, user: UserId) {
    user in profiles && profiles[user].rfc.Some? && Trim(profiles[user].rfc.value) != ""
  }

  datatype GuardOutcome = Stop(response: CfdiResponse) | Proceed(invoice: nat)

  /** The guards, in the order the route applies them. */
  function Guard(profiles: map<UserId, ProfessionalProfile>, invoices: seq<Invoice>, user: Option<UserId>,
                 invoiceParam: Option<string>, apiKey: Option<string>): (g: GuardOutcome)
    ensures g.Proceed? ==> g.invoice < |invoices| && invoices[g.invoice].userId == user && user.Some? &&
                           invoices[g.invoice].status == InvoiceStatus.Paid && !Truthy(invoices[g.invoice].cfdi.uuid) &&
                           CallerTrust(profiles, user.value) >= 3 && HasRfc(profiles, user.value) && Truthy(apiKey)
    ensures g == Stop(NotAuthenticated) <==> user.None?
    ensures g == Stop(MissingInvoiceId) <==> user.Some? && !Truthy(invoiceParam)
  {
    if user.None? then Stop(NotAuthenticated)
    else if !Truthy(invoiceParam) then Stop(MissingInvoiceId)
    else if CallerTrust(profiles, user.value) < 3 then Stop(TrustTooLow)
    else if !HasRfc(profiles, user.value) then Stop(MissingRfc)
    else
      var found := FindInvoice(invoices, invoiceParam.value);
      if found.None? then Stop(InvoiceNotFound)
      else
        var invoice := invoices[found.value];
        if invoice.userId != user then Stop(NotOwner)
        else if invoice.status != InvoiceStatus.Paid then Stop(NotPaid)
        else if Truthy(invoice.cfdi.uuid) then Stop(RedirectToBilling)
        else if !Truthy(apiKey) then Stop(ComingSoon)
        else Proceed(found.value)
  }

  /** The provider's answer: a thrown call, a non-OK status, or the parsed body's fields. */
  datatype ProviderAnswer =
    | ProviderThrew
    | NotOk
    | Ok(id: Option<string>, uuid: Option<string>, cfdiUuid: Option<string>, pdfUrl: Option<string>, xmlUrl: Option<string>)

  /** `data?.id ?? data?.uuid ?? data?.cfdi_uuid`: the first present field, even an empty one. */
  function AnswerUuid(answer: ProviderAnswer): Option<string>
    requires answer.Ok?
  {
    if answer.id.Some? then answer.id else if answer.uuid.Some? then answer.uuid else answer.cfdiUuid
  }

  /** The CFDI columns written from an answer. */
  function IssuedFields(answer: ProviderAnswer, now: Timestamp): CfdiFields
    requires answer.Ok?
  {
    CfdiFields(AnswerUuid(answer), answer.id, Some(now), answer.pdfUrl, answer.xmlUrl)
  }

  /** The route as a function of the store and the provider's answer. */
  function CfdiRoute(t: Tables, user: Option<UserId>, invoiceParam: Option<string>, apiKey: Option<string>,
                     answer: ProviderAnswer, now: Timestamp): (Tables, CfdiResponse)
  {
    var g := Guard(t.profiles, t.invoices, user, invoiceParam, apiKey);
    if g.Stop? then (t, g.response)
    else if answer.ProviderThrew? then (t, ProviderFailed)
    else if answer.NotOk? then (t, ProviderRejected)
    else if Truthy(AnswerUuid(answer)) then (SetInvoiceCfdi(t, g.invoice, IssuedFields(answer, now)), RedirectToBilling)
    else (t, RedirectToBilling)
  }

  method Get(st: Store, user: Option<UserId>, invoiceParam: Option<string>, apiKey: Option<string>,
             answer: ProviderAnswer, now: Timestamp) returns (response: CfdiResponse)
    modifies st
    ensures (st.Snapshot(), response) == CfdiRoute(old(st.Snapshot()), user, invoiceParam, apiKey, answer, now)
  {
    var g := Guard(st.profiles, st.invoices, user, invoiceParam, apiKey);
    if g.Stop? {
      return g.response;
    }
    match answer
    case ProviderThrew =>
      return ProviderFailed;
    case NotOk =>
      return ProviderRejected;
    case Ok(_, _, _, _, _) =>
      var uuid := AnswerUuid(answer);
      if Truthy(uuid) {
        st.WriteInvoiceCfdi(g.invoice, IssuedFields(answer, now));
      }
      return RedirectToBilling;
  }

  // ---------------------------------------------------------------------------
  // Properties.

  /**
   * The trust and RFC checks come before the invoice is looked up: a caller below level 3
   * (or without a profile) is refused whatever the invoices hold, and so is one without an RFC.
   */
  lemma ProfileChecksComeFirst(t: Tables, invoices: seq<Invoice>, user: UserId, invoiceParam: Option<string>,
                               apiKey: Option<string>)
    requires Truthy(invoiceParam)
    ensures CallerTrust(t.profiles, user) < 3 ==>
      Guard(t.profiles, t.invoices, Some(user), invoiceParam, apiKey) == Guard(t.profiles, invoices, Some(user), invoiceParam, apiKey) == Stop(TrustTooLow)
    ensures user !in t.profiles ==> Guard(t.profiles, t.invoices, Some(user), invoiceParam, apiKey) == Stop(TrustTooLow)
    ensures CallerTrust(t.profiles, user) >= 3 && !HasRfc(t.profiles, user) ==>
      Guard(t.profiles, t.invoices, Some(user), invoiceParam, apiKey) == Guard(t.profiles, invoices, Some(user), invoiceParam, apiKey) == Stop(MissingRfc)
  {
  }

  /**
   * Only one outcome writes: a provider answer with a non-empty id, which fills the CFDI
   * columns of the caller's own paid invoice and leaves every other column and row as it was.
   */
  lemma OnlyIssuanceWrites(t: Tables, user: Option<UserId>, invoiceParam: Option<string>, apiKey: Option<string>,
                           answer: ProviderAnswer, now: Timestamp)
    ensures var (r, response) := CfdiRoute(t, user, invoiceParam, apiKey, answer, now);
      r.subs == t.subs && r.profiles == t.profiles && |r.invoices| == |t.invoices| &&
      (r != t ==>
        var i := Guard(t.profiles, t.invoices, user, invoiceParam, apiKey).invoice;
        Guard(t.profiles, t.invoices, user, invoiceParam, apiKey).Proceed? && answer.Ok? && Truthy(AnswerUuid(answer)) &&
        response == RedirectToBilling && user.Some? &&
        t.invoices[i].userId == user && t.invoices[i].status == InvoiceStatus.Paid && !Truthy(t.invoices[i].cfdi.uuid) &&
        r.invoices[i] == t.invoices[i].(cfdi := IssuedFields(answer, now)) &&
        forall j :: 0 <= j < |t.invoices| && j != i ==> r.invoices[j] == t.invoices[j])
    ensures var r := CfdiRoute(t, user, invoiceParam, apiKey, answer, now).0;
      forall j :: 0 <= j < |t.invoices| ==>
        r.invoices[j].amountCents == t.invoices[j].amountCents && r.invoices[j].status == t.invoices[j].status &&
        r.invoices[j].userId == t.invoices[j].userId
  {
    var g := Guard(t.profiles, t.invoices, user, invoiceParam, apiKey);
    if g.Proceed? && answer.Ok? && Truthy(AnswerUuid(answer)) {
      var r := SetInvoiceCfdi(t, g.invoice, IssuedFields(answer, now));
      assert CfdiRoute(t, user, invoiceParam, apiKey, answer, now).0 == r;
    } else {
      assert CfdiRoute(t, user, invoiceParam, apiKey, answer, now).0 == t;
    }
  }

  /**
   * An invoice that already has a CFDI is never sent to the provider again: the request
   * redirects without writing, whatever the key and the provider would answer.
   */
  lemma IssuedInvoiceNotReissued(t: Tables, user: UserId, i: nat, apiKey: Option<string>, answer: ProviderAnswer,
                                 now: Timestamp)
    requires i < |t.invoices| && CallerTrust(t.profiles, user) >= 3 && HasRfc(t.profiles, user)
    requires t.invoices[i].userId == Some(user) && t.invoices[i].status == InvoiceStatus.Paid
    requires Truthy(t.invoices[i].cfdi.uuid)
    ensures CfdiRoute(t, Some(user), Some(Decimal(i)), apiKey, answer, now) == (t, RedirectToBilling)
  {
    FindInvoiceExact(t.invoices, Decimal(i), i);
  }

  /** Requesting again after a successful issuance changes nothing. */
  lemma RequestIdempotent(t: Tables, user: UserId, invoiceParam: Option<string>, apiKey: Option<string>,
                          answer: ProviderAnswer, answer2: ProviderAnswer, now: Timestamp, later: Timestamp)
    ensures var (r, response) := CfdiRoute(t, Some(user), invoiceParam, apiKey, answer, now);
      r != t ==> CfdiRoute(r, Some(user), invoiceParam, apiKey, answer2, later) == (r, RedirectToBilling)
  {
    var r := CfdiRoute(t, Some(user), invoiceParam, apiKey, answer, now).0;
    if r != t {
      var i := Guard(t.profiles, t.invoices, Some(user), invoiceParam, apiKey).invoice;
      assert r.profiles == t.profiles;
      assert FindInvoice(r.invoices, invoiceParam.value) == Some(i) by {
        FindInvoiceExact(r.invoices, invoiceParam.value, i);
      }
      assert r.invoices[i].cfdi.uuid == AnswerUuid(answer);
    }
  }

  /**
   * Without an API key every request that would otherwise reach the provider ends in 501
   * (`CFDI_COMING_SOON`), whatever the provider would answer; an answer whose `id` is
   * present but empty hides its `uuid`, so nothing is written.
   */
  lemma KeyAndIdQuirks(t: Tables, user: UserId, invoiceParam: Option<string>, key: string, answer: ProviderAnswer,
                       now: Timestamp)
    ensures Guard(t.profiles, t.invoices, Some(user), invoiceParam, Some(key)).Proceed? ==>
      CfdiRoute(t, Some(user), invoiceParam, None, answer, now) == (t, ComingSoon) && HttpStatus(ComingSoon) == 501
    ensures answer.Ok? && answer.id == Some("") ==>
      CfdiRoute(t, Some(user), invoiceParam, Some("key"), answer, now).0 == t
  {
  }

  /** The invoice-level conditions a request must meet to reach the provider. */
  predicate Eligible(t: Tables, user: UserId, i: nat) {
    i < |t.invoices| && CallerTrust(t.profiles, user) >= 3 && HasRfc(t.profiles, user) &&
    t.invoices[i].userId == Some(user) && t.invoices[i].status == InvoiceStatus.Paid && !Truthy(t.invoices[i].cfdi.uuid)
  }

  /**
   * The invoice checks, in the route's order, for a caller who passed the profile checks:
   * an unknown id is 404, another user's invoice 403, an unpaid one 400, one with a CFDI
   * a redirect, no API key 501; only then does the request go on to the provider.
   */
  lemma InvoiceChecksInOrder(t: Tables, user: UserId, invoiceParam: string, apiKey: Option<string>)
    requires invoiceParam != "" && CallerTrust(t.profiles, user) >= 3 && HasRfc(t.profiles, user)
    ensures var g := Guard(t.profiles, t.invoices, Some(user), Some(invoiceParam), apiKey);
      ((forall i: nat :: i < |t.invoices| ==> Decimal(i) != invoiceParam) ==> g == Stop(InvoiceNotFound)) &&
      (forall i: nat :: i < |t.invoices| && Decimal(i) == invoiceParam ==>
        (t.invoices[i].userId != Some(user) ==> g == Stop(NotOwner)) &&
        (t.invoices[i].userId == Some(user) && t.invoices[i].status != InvoiceStatus.Paid ==> g == Stop(NotPaid)) &&
        ((t.invoices[i].userId == Some(user) && t.invoices[i].status == InvoiceStatus.Paid &&
          Truthy(t.invoices[i].cfdi.uuid)) ==> g == Stop(RedirectToBilling)) &&
        (Eligible(t, user, i) && !Truthy(apiKey) ==> g == Stop(ComingSoon)) &&
        (Eligible(t, user, i) && Truthy(apiKey) ==> g == Proceed(i)))
  {
    forall i: nat | i < |t.invoices| && Decimal(i) == invoiceParam
      ensures FindInvoice(t.invoices, invoiceParam) == Some(i)
    {
      FindInvoiceExact(t.invoices, invoiceParam, i);
    }
  }

  /**
   * A request for invoice `i` goes on to the provider exactly when the caller owns it, it
   * is paid and has no CFDI, the caller is at trust 3 with an RFC, and an API key is set;
   * with everything but the key the answer is 501.
   */
  lemma EligibleProceeds(t: Tables, user: UserId, i: nat, apiKey: Option<string>)
    requires i < |t.invoices|
    ensures Guard(t.profiles, t.invoices, Some(user), Some(Decimal(i)), apiKey) == Proceed(i) <==>
      Eligible(t, user, i) && Truthy(apiKey)
    ensures Eligible(t, user, i) && !Truthy(apiKey) ==>
      CfdiRoute(t, Some(user), Some(Decimal(i)), apiKey, ProviderThrew, 0) == (t, ComingSoon)
  {
    FindInvoiceExact(t.invoices, Decimal(i), i);
  }

  /**
   * An eligible request with a key ends as the provider's answer says: an answer with a
   * non-empty id or uuid writes the CFDI columns of invoice `i` and redirects; an answer
   * without one redirects without writing; a non-OK answer is 502 and a thrown call 500,
   * both with nothing written.
   */
  lemma EligibleRequestOutcome(t: Tables, user: UserId, i: nat, key: string, answer: ProviderAnswer, now: Timestamp)
    requires Eligible(t, user, i) && key != ""
    ensures var result := CfdiRoute(t, Some(user), Some(Decimal(i)), Some(key), answer, now);
      (answer.Ok? && Truthy(AnswerUuid(answer)) ==>
         result == (SetInvoiceCfdi(t, i, IssuedFields(answer, now)), RedirectToBilling)) &&
      (answer.Ok? && !Truthy(AnswerUuid(answer)) ==> result == (t, RedirectToBilling)) &&
      (answer.NotOk? ==> result == (t, ProviderRejected) && HttpStatus(result.1) == 502) &&
      (answer.ProviderThrew? ==> result == (t, ProviderFailed))
  {
    EligibleProceeds(t, user, i, Some(key));
  }
}
