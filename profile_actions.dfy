/**
 * Saving the profile form (src/app/perfil/actions.ts): every field of the form is
 * normalised (trimmed, upper-cased for RFC and CURP, parsed for the graduation year,
 * reduced to a URL slug for the public profile) and the result is written with one upsert
 * keyed on the user.
 */
module ProfileActions {
  import opened Database
  import opened Store
  import opened Text

  /** The form as submitted; None is a field the form did not send. */
  datatype ProfileForm = ProfileForm(
    cedulaProfesional: Option<string>,
    cedulaEspecialidad: Option<string>,
    specialty: Option<string>,
    subspecialty: Option<string>,
    institutionAffiliation: Option<string>,
    graduationYear: Option<string>,
    rfc: Option<string>,
    curp: Option<string>,
    regionCode: Option<string>,
    bio: Option<string>,
    profilePhotoUrl: Option<string>,
    publicProfileSlug: Option<string>,
    isPublicProfile: Option<string>)

  /** `value?.trim() || null`. */
  function TextField(v: Option<string>): (r: Option<string>)
    ensures r.Some? ==> v.Some? && r.value == Trim(v.value) && r.value != ""
    ensures r.None? ==> v.None? || Trim(v.value) == ""
  {
    if v.Some? && Trim(v.value) != "" then Some(Trim(v.value)) else None
  }

  /** `value?.trim()?.toUpperCase() || null`. */
  function UpperField(v: Option<string>): (r: Option<string>)
    ensures r.Some? ==> v.Some? && r.value == Upper(Trim(v.value)) && r.value != ""
    ensures r.None? ==> v.None? || Trim(v.value) == ""
  {
    if v.Some? && Upper(Trim(v.value)) != "" then Some(Upper(Trim(v.value))) else None
  }

  /** A non-blank year is read with `parseInt(value, 10)`; NaN becomes null. */
  function YearField(v: Option<string>): Option<int> {
    if v.Some? && Trim(v.value) != "" then ParseInt(v.value) else None
  }

  /** `is_public_profile` is on exactly when the checkbox sent "on". */
  predicate CheckboxOn(v: Option<string>) {
    v == Some("on")
  }

  // ---------------------------------------------------------------------------
  // Public profile slug

  predicate SlugChar(c: char) {
    'a' <= c <= 'z' || '0' <= c <= '9' || c == '-'
  }

  predicate NoDoubleHyphen(s: string) {
    forall i :: 0 <= i < |s| - 1 ==> !(s[i] == '-' && s[i + 1] == '-')
  }

  /** A finished slug: non-empty, only [a-z0-9-], no "--", and no hyphen at either end. */
  predicate IsSlug(s: string) {
    |s| > 0 && (forall i :: 0 <= i < |s| ==> SlugChar(s[i])) && NoDoubleHyphen(s) && s[0] != '-' && s[|s| - 1] != '-'
  }

  /** `.replace(/[^a-z0-9-]/g, '-')`. */
  function Dashify(s: string): (r: string)
    ensures |r| == |s|
    ensures forall i :: 0 <= i < |s| ==> r[i] == (if SlugChar(s[i]) then s[i] else '-')
  {
    if s == [] then [] else [if SlugChar(s[0]) then s[0] else '-'] + Dashify(s[1..])
  }

  /** The characters of `s` other than hyphens, in order. */
  function NonHyphens(s: string): string {
    if s == [] then [] else (if s[0] == '-' then [] else [s[0]]) + NonHyphens(s[1..])
  }

  /**
   * Where the hyphens of `s` stand: entry k says whether at least one hyphen comes
   * right before the k-th non-hyphen character (the last entry: at the end of `s`).
   */
  function HyphenMarks(s: string): (m: seq<bool>)
    ensures |m| == |NonHyphens(s)| + 1
  {
    if s == [] then [false]
    else if s[0] == '-' then [true] + HyphenMarks(s[1..])[1..]
    else [false] + HyphenMarks(s[1..])
  }

  /** `.replace(/-+/g, '-')`: every run of hyphens becomes one hyphen. */
  function CollapseHyphens(s: string): (r: string)
    ensures (forall i :: 0 <= i < |s| ==> SlugChar(s[i])) ==> forall i :: 0 <= i < |r| ==> SlugChar(r[i])
    ensures NoDoubleHyphen(r)
    ensures NoDoubleHyphen(s) ==> r == s
    ensures |r| > 0 ==> |s| > 0 && r[0] == s[0]
  {
    if |s| < 2 then s
    else if s[0] == '-' && s[1] == '-' then CollapseHyphens(s[1..])
    else
      var rest := CollapseHyphens(s[1..]);
      assert NoDoubleHyphen(s) ==> NoDoubleHyphen(s[1..]);
      [s[0]] + rest
  }

  /** The collapse keeps the non-hyphen characters in order and the places where hyphens stood. */
  lemma {:induction false} CollapseKeepsContent(s: string)
    ensures NonHyphens(CollapseHyphens(s)) == NonHyphens(s) && HyphenMarks(CollapseHyphens(s)) == HyphenMarks(s)
  {
    if |s| >= 2 {
      CollapseKeepsContent(s[1..]);
      if !(s[0] == '-' && s[1] == '-') {
        var rest := CollapseHyphens(s[1..]);
        assert ([s[0]] + rest)[1..] == rest;
      }
    }
  }

  /** A string without "--" is fixed by its non-hyphen characters and its hyphen marks. */
  lemma {:induction false} MarksDetermine(a: string, b: string)
    requires NoDoubleHyphen(a) && NoDoubleHyphen(b)
    requires NonHyphens(a) == NonHyphens(b) && HyphenMarks(a) == HyphenMarks(b)
    ensures a == b
  {
    if a == [] || b == [] {
      NoLettersShape(a);
      NoLettersShape(b);
    } else {
      assert HyphenMarks(a)[0] == (a[0] == '-') && HyphenMarks(b)[0] == (b[0] == '-');
      SuffixShape(a);
      SuffixShape(b);
      if a[0] != '-' {
        assert NonHyphens(a)[0] == a[0] && NonHyphens(b)[0] == b[0];
        assert NonHyphens(a[1..]) == NonHyphens(a)[1..] && NonHyphens(b[1..]) == NonHyphens(b)[1..];
        assert HyphenMarks(a[1..]) == HyphenMarks(a)[1..] && HyphenMarks(b[1..]) == HyphenMarks(b)[1..];
      } else {
        assert b[0] == '-';
        assert NonHyphens(a[1..]) == NonHyphens(a) && NonHyphens(b[1..]) == NonHyphens(b);
        assert HyphenMarks(a[1..])[0] == false && HyphenMarks(b[1..])[0] == false;
        assert HyphenMarks(a[1..]) == [false] + HyphenMarks(a)[1..];
        assert HyphenMarks(b[1..]) == [false] + HyphenMarks(b)[1..];
      }
      MarksDetermine(a[1..], b[1..]);
      assert a == [a[0]] + a[1..] && b == [b[0]] + b[1..];
    }
  }

  /** A string without "--" and without other characters is empty or a single hyphen. */
  lemma NoLettersShape(s: string)
    requires NoDoubleHyphen(s) && NonHyphens(s) == []
    ensures s == [] || s == "-"
    ensures HyphenMarks(s) == [s != []]
  {
    if s != [] {
      SuffixShape(s);
      NoLettersShape(s[1..]);
      assert s == [s[0]] + s[1..];
    }
  }

  /** The tail of a string without "--" has none either; after a leading hyphen it starts with no hyphen. */
  lemma SuffixShape(s: string)
    requires |s| > 0 && NoDoubleHyphen(s)
    ensures NoDoubleHyphen(s[1..])
    ensures s[0] == '-' ==> HyphenMarks(s[1..])[0] == false
  {
    if |s| > 1 {
      assert s[0] == '-' ==> s[1] != '-';
    } else {
      assert s[1..] == [];
    }
  }

  /** The collapse is the one string without "--" with the input's characters and hyphen marks. */
  lemma CollapseHyphensCharacterised(s: string, r: string)
    ensures r == CollapseHyphens(s) <==>
      NoDoubleHyphen(r) && NonHyphens(r) == NonHyphens(s) && HyphenMarks(r) == HyphenMarks(s)
  {
    CollapseKeepsContent(s);
    if NoDoubleHyphen(r) && NonHyphens(r) == NonHyphens(s) && HyphenMarks(r) == HyphenMarks(s) {
      MarksDetermine(r, CollapseHyphens(s));
    }
  }

  /** `.replace(/^-|-$/g, '')`: one hyphen off each end. */
  function StripEndHyphens(s: string): string {
    var u := if |s| > 0 && s[0] == '-' then s[1..] else s;
    if |u| > 0 && u[|u| - 1] == '-' then u[..|u| - 1] else u
  }

  /** The slug pipeline before the `|| null`. */
  function NormalizeSlug(v: string): string {
    StripEndHyphens(CollapseHyphens(Dashify(Lower(Trim(v)))))
  }

  /** The public profile slug written for a form value. */
  function SlugField(v: Option<string>): Option<string> {
    if v.Some? && NormalizeSlug(v.value) != "" then Some(NormalizeSlug(v.value)) else None
  }

  /** A slice keeps the slug alphabet and the absence of "--". */
  lemma SliceKeepsShape(s: string, a: nat, b: nat)
    requires a <= b <= |s|
    ensures (forall i :: 0 <= i < |s| ==> SlugChar(s[i])) ==> forall i :: 0 <= i < b - a ==> SlugChar(s[a..b][i])
    ensures NoDoubleHyphen(s) ==> NoDoubleHyphen(s[a..b])
  {
    var t := s[a..b];
    if NoDoubleHyphen(s) {
      forall i | 0 <= i < |t| - 1
        ensures !(t[i] == '-' && t[i + 1] == '-')
      {
        assert t[i] == s[a + i] && t[i + 1] == s[a + i + 1];
      }
    }
  }

  /** Stripping a string without "--" leaves no hyphen at either end, and keeps the rest of its shape. */
  lemma StripShape(s: string)
    requires (forall i :: 0 <= i < |s| ==> SlugChar(s[i])) && NoDoubleHyphen(s)
    ensures var r := StripEndHyphens(s);
      (forall i :: 0 <= i < |r| ==> SlugChar(r[i])) && NoDoubleHyphen(r) &&
      (r == [] || (r[0] != '-' && r[|r| - 1] != '-'))
  {
    var u := if |s| > 0 && s[0] == '-' then s[1..] else s;
    if |s| > 0 && s[0] == '-' {
      SliceKeepsShape(s, 1, |s|);
      if |s| > 1 {
        assert !(s[0] == '-' && s[1] == '-');
      }
    } else {
      assert u == s[0..|s|];
    }
    var r := if |u| > 0 && u[|u| - 1] == '-' then u[..|u| - 1] else u;
    if |u| > 0 && u[|u| - 1] == '-' {
      SliceKeepsShape(u, 0, |u| - 1);
    }
  }

  /** Every slug written has the shape of a URL slug. */
  lemma SlugFieldShape(v: Option<string>)
    ensures SlugField(v).Some? ==> IsSlug(SlugField(v).value)
  {
    if v.Some? {
      var d := Dashify(Lower(Trim(v.value)));
      StripShape(CollapseHyphens(d));
    }
  }

  /** Lower-casing and dashing leave a string over the slug alphabet unchanged. */
  lemma SlugAlphabetFixed(s: string)
    requires forall i :: 0 <= i < |s| ==> SlugChar(s[i])
    ensures Lower(s) == s && Dashify(s) == s
  {
    assert forall i :: 0 <= i < |s| ==> LowerChar(s[i]) == s[i];
  }

  /** A finished slug passes through the pipeline unchanged. */
  lemma SlugFixedPoint(s: string)
    requires IsSlug(s)
    ensures NormalizeSlug(s) == s
  {
    assert !IsSpace(s[0]) && !IsSpace(s[|s| - 1]);
    TrimUnchanged(s);
    SlugAlphabetFixed(s);
    assert CollapseHyphens(s) == s;
  }

  /** Normalising a written slug again gives the same slug. */
  lemma SlugIdempotent(v: Option<string>)
    ensures SlugField(v).Some? ==> SlugField(SlugField(v)) == SlugField(v)
  {
    if SlugField(v).Some? {
      SlugFieldShape(v);
      SlugFixedPoint(SlugField(v).value);
    }
  }

  /** Re-saving a normalised text field, RFC or CURP leaves it as it is. */
  lemma FieldsIdempotent(v: Option<string>)
    ensures TextField(TextField(v)) == TextField(v)
    ensures UpperField(UpperField(v)) == UpperField(v)
  {
    if v.Some? {
      TrimIdempotent(v.value);
      UpperKeepsTrimmed(Trim(v.value));
      UpperIdempotent(Trim(v.value));
    }
  }

  /** A year typed as a plain numeral is stored as that number; a blank one as null. */
  lemma YearFieldReadsNumerals(n: nat)
    ensures YearField(Some(Decimal(n))) == Some(n)
    ensures YearField(Some("")) == None && YearField(None) == None
  {
    ParseDecimal(n);
    assert !IsSpace(Decimal(n)[0]);
    TrimUnchanged(Decimal(n));
  }

  // ---------------------------------------------------------------------------
  // The upsert

  datatype FormResult = NotAuthenticated | UpsertFailed | Saved

  /** The profile row after the upsert: the form's columns replaced, the rest kept (or defaulted). */
  function UpsertedProfile(existing: Option<ProfessionalProfile>, form: ProfileForm): ProfessionalProfile {
    var base := if existing.Some? then existing.value else BlankProfile;
    base.(cedulaProfesional := TextField(form.cedulaProfesional),
          cedulaEspecialidad := TextField(form.cedulaEspecialidad),
          specialty := TextField(form.specialty),
          subspecialty := TextField(form.subspecialty),
          institutionAffiliation := TextField(form.institutionAffiliation),
          graduationYear := YearField(form.graduationYear),
          rfc := UpperField(form.rfc),
          curp := UpperField(form.curp),
          regionCode := TextField(form.regionCode),
          bio := TextField(form.bio),
          profilePhotoUrl := TextField(form.profilePhotoUrl),
          publicProfileSlug := SlugField(form.publicProfileSlug),
          isPublicProfile := CheckboxOn(form.isPublicProfile))
  }

  function Existing(profiles: map<UserId, ProfessionalProfile>, user: UserId): Option<ProfessionalProfile> {
    if user in profiles then Some(profiles[user]) else None
  }

  /** `updateProfile` as a function of the store. */
  function UpdateProfileRoute(t: Tables, user: Option<UserId>, form: ProfileForm, upsertFails: bool): (Tables, FormResult) {
    if user.None? then (t, NotAuthenticated)
    else if upsertFails then (t, UpsertFailed)
    else (PutProfile(t, user.value, UpsertedProfile(Existing(t.profiles, user.value), form)), Saved)
  }

  method UpdateProfile(st: Store, user: Option<UserId>, form: ProfileForm, upsertFails: bool) returns (result: FormResult)
    modifies st
    ensures (st.Snapshot(), result) == UpdateProfileRoute(old(st.Snapshot()), user, form, upsertFails)
  {
    if user.None? {
      return NotAuthenticated;
    }
    var row := UpsertedProfile(Existing(st.profiles, user.value), form);
    if upsertFails {
      return UpsertFailed;
    }
    st.WriteProfile(user.value, row);
    return Saved;
  }

  /**
   * Saving writes exactly the caller's row and nothing else. The form cannot move the
   * trust level, user type or professional stage: an existing row keeps them and a new
   * row starts at trust level 0.
   */
  lemma UpdateProfileEffect(t: Tables, user: Option<UserId>, form: ProfileForm, upsertFails: bool)
    ensures var (r, result) := UpdateProfileRoute(t, user, form, upsertFails);
      (result != Saved ==> r == t) &&
      (result == Saved <==> user.Some? && !upsertFails) &&
      (result == Saved ==>
        var p := r.profiles[user.value];
        r.profiles.Keys == t.profiles.Keys + {user.value} &&
        (forall u :: u in t.profiles && u != user.value ==> r.profiles[u] == t.profiles[u]) &&
        r.subs == t.subs && r.invoices == t.invoices && r.verifications == t.verifications &&
        (user.value in t.profiles ==>
           p.trustLevel == t.profiles[user.value].trustLevel && p.userTypeId == t.profiles[user.value].userTypeId &&
           p.professionalStage == t.profiles[user.value].professionalStage) &&
        (user.value !in t.profiles ==> p.trustLevel == 0) &&
        (p.isPublicProfile <==> form.isPublicProfile == Some("on")) &&
        (p.publicProfileSlug.Some? ==> IsSlug(p.publicProfileSlug.value)))
  {
    SlugFieldShape(form.publicProfileSlug);
  }
}
