/**
 * Creating the professional profile at the end of onboarding
 * (src/app/registro/create-profile.ts): the user type is looked up by slug, the
 * graduation year is kept only when it reads as a year between 1970 and the current
 * year, empty strings become null, and the row is upserted at trust level 1.
 *
 * The caller passes the user id (no session is checked here). The `user_types` table is
 * a parameter (id to slug), as are the current year and whether the upsert reports an
 * error.
 */
module CreateProfile {
  import opened Database
  import opened Store
  import opened Text

  datatype OnboardingForm = OnboardingForm(
    fullName: string,
    userTypeSlug: string,
    curp: Option<string>,
    rfc: Option<string>,
    cedulaProfesional: Option<string>,
    cedulaEspecialidad: Option<string>,
    specialty: Option<string>,
    subspecialty: Option<string>,
    institutionAffiliation: Option<string>,
    regionCode: Option<string>,
    graduationYear: Option<string>,
    professionalStage: Option<string>)

  datatype CreateResult = Created | CreateFailed

  /** The first year the form accepts. */
  const FirstYear: int := 1970

  function SlugIs(slug: string): string -> bool {
    (s: string) => s == slug
  }

  /** `user_types.select('id').eq('slug', …).single()`, then `userType?.id ?? null`. */
  function UserTypeId(userTypes: map<string, string>, slug: string): Option<string> {
    SingleMatch(userTypes, SlugIs(slug))
  }

  /**
   * `graduation_year`: `parseInt` of a non-empty value, kept when the result is truthy
   * and within [1970, currentYear], null otherwise.
   */
  function GradYear(v: Option<string>, currentYear: int): Option<int> {
    if Truthy(v) then
      var y := ParseInt(v.value);
      if y.Some? && y.value != 0 && y.value >= FirstYear && y.value <= currentYear then y else None
    else None
  }

  /** The profile row after the upsert: the onboarding columns replaced, the others kept (or defaulted). */
  function OnboardedProfile(existing: Option<ProfessionalProfile>, userTypes: map<string, string>,
                            form: OnboardingForm, currentYear: int): ProfessionalProfile
  {
    var base := if existing.Some? then existing.value else BlankProfile;
    base.(userTypeId := UserTypeId(userTypes, form.userTypeSlug),
          specialty := OrNull(form.specialty),
          subspecialty := OrNull(form.subspecialty),
          institutionAffiliation := OrNull(form.institutionAffiliation),
          regionCode := OrNull(form.regionCode),
          graduationYear := GradYear(form.graduationYear, currentYear),
          professionalStage := OrNull(form.professionalStage),
          cedulaProfesional := OrNull(form.cedulaProfesional),
          cedulaEspecialidad := OrNull(form.cedulaEspecialidad),
          curp := OrNull(form.curp),
          rfc := OrNull(form.rfc),
          trustLevel := 1)
  }

  /** `createProfessionalProfileFromOnboarding` as a function of the store. */
  function CreateRoute(t: Tables, user: UserId, userTypes: map<string, string>, form: OnboardingForm,
                       currentYear: int, upsertFails: bool): (Tables, CreateResult)
  {
    if upsertFails then (t, CreateFailed)
    else
      var existing := if user in t.profiles then Some(t.profiles[user]) else None;
      (PutProfile(t, user, OnboardedProfile(existing, userTypes, form, currentYear)), Created)
  }

  method CreateFromOnboarding(st: Store, user: UserId, userTypes: map<string, string>, form: OnboardingForm,
                              currentYear: int, upsertFails: bool) returns (result: CreateResult)
    modifies st
    ensures (st.Snapshot(), result) == CreateRoute(old(st.Snapshot()), user, userTypes, form, currentYear, upsertFails)
  {
    var existing := if user in st.profiles then Some(st.profiles[user]) else None;
    var row := OnboardedProfile(existing, userTypes, form, currentYear);
    if upsertFails {
      return CreateFailed;
    }
    st.WriteProfile(user, row);
    return Created;
  }

  // ---------------------------------------------------------------------------
  // Properties.

  /** A stored graduation year always lies in [1970, currentYear]; an empty or absent value is null. */
  lemma GradYearWindow(v: Option<string>, currentYear: int)
    ensures GradYear(v, currentYear).Some? ==> FirstYear <= GradYear(v, currentYear).value <= currentYear
    ensures GradYear(v, currentYear).Some? ==> Truthy(v) && ParseInt(v.value) == GradYear(v, currentYear)
    ensures !Truthy(v) ==> GradYear(v, currentYear).None?
  {
  }

  /** The digits in front of any non-digit are exactly the numeral. */
  lemma {:induction false} DigitPrefixStopsAtText(d: string, rest: string)
    requires forall i :: 0 <= i < |d| ==> IsDigit(d[i])
    requires rest == [] || !IsDigit(rest[0])
    ensures DigitPrefix(d + rest) == d
  {
    if d != [] {
      assert (d + rest)[1..] == d[1..] + rest;
      DigitPrefixStopsAtText(d[1..], rest);
    }
  }

  /**
   * A numeral is read as its value whatever non-digit text follows it ("1990abc" reads as
   * 1990), and is kept exactly when it lies in [1970, currentYear].
   */
  lemma YearNumeralWithTrailingText(n: nat, rest: string, currentYear: int)
    requires rest == [] || !IsDigit(rest[0])
    ensures GradYear(Some(Decimal(n) + rest), currentYear) ==
      (if FirstYear <= n <= currentYear then Some(n) else None)
  {
    var s := Decimal(n) + rest;
    assert s[0] == Decimal(n)[0];
    assert !IsSpace(s[0]);
    assert TrimStart(s) == s;
    assert Unsigned(s) == s;
    DigitPrefixStopsAtText(Decimal(n), rest);
    DecimalValue(n);
  }

  /**
   * A successful onboarding writes only the caller's row, at trust level 1 whatever the
   * level was before; the onboarding columns are the form's values with empty strings as
   * null, and the columns the form does not carry (bio, slug, photo, public flag) are kept.
   */
  lemma CreateEffect(t: Tables, user: UserId, userTypes: map<string, string>, form: OnboardingForm,
                     currentYear: int, upsertFails: bool)
    ensures var (r, result) := CreateRoute(t, user, userTypes, form, currentYear, upsertFails);
      (result == Created <==> !upsertFails) &&
      (upsertFails ==> r == t) &&
      (!upsertFails ==>
        var p := r.profiles[user];
        r.profiles.Keys == t.profiles.Keys + {user} &&
        (forall u :: u in t.profiles && u != user ==> r.profiles[u] == t.profiles[u]) &&
        r.subs == t.subs && r.invoices == t.invoices && r.verifications == t.verifications &&
        p.trustLevel == 1 &&
        (p.rfc.Some? <==> Truthy(form.rfc)) && (p.rfc.Some? ==> p.rfc == form.rfc) &&
        (p.curp.Some? <==> Truthy(form.curp)) && (p.curp.Some? ==> p.curp == form.curp) &&
        (p.cedulaProfesional.Some? <==> Truthy(form.cedulaProfesional)) &&
        (user in t.profiles ==>
          var before := t.profiles[user];
          p.bio == before.bio && p.publicProfileSlug == before.publicProfileSlug &&
          p.profilePhotoUrl == before.profilePhotoUrl && p.isPublicProfile == before.isPublicProfile) &&
        (user !in t.profiles ==> p.bio.None? && p.publicProfileSlug.None? && !p.isPublicProfile))
  {
  }

  /** The user type is recorded exactly when one user type carries the slug. */
  lemma UserTypeFound(userTypes: map<string, string>, slug: string, id: string)
    requires id in userTypes && userTypes[id] == slug
    requires forall j :: j in userTypes && userTypes[j] == slug ==> j == id
    ensures UserTypeId(userTypes, slug) == Some(id)
  {
    SingleMatchOne(userTypes, SlugIs(slug), id);
  }

  /** An unknown slug leaves the user type null. */
  lemma UnknownUserType(userTypes: map<string, string>, slug: string)
    requires forall j :: j in userTypes ==> userTypes[j] != slug
    ensures UserTypeId(userTypes, slug).None?
  {
  }
}
