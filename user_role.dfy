/**
 * Dashboard roles (src/lib/user-role.ts): the slug-to-role table, the role-to-route table,
 * the admin check against the ADMIN_EMAILS list, and the priority chain that resolves a
 * user's role from auth metadata, `profiles.role` and the professional profile's user type.
 *
 * Database lookups are parameters: each query's answer is given as a value.
 */
module UserRole {
  import opened Database
  import opened Text

  datatype DashboardRole = SuperAdmin | ClinicAdmin | EmpresaAdmin | Doctor

  function RoleName(r: DashboardRole): string {
    match r
    case SuperAdmin => "super_admin"
    case ClinicAdmin => "clinic_admin"
    case EmpresaAdmin => "empresa_admin"
    case Doctor => "doctor"
  }

  /** `slugToDashboardRole`: the user-type slug's role; any other slug, or none, is a doctor. */
  function SlugToDashboardRole(slug: Option<string>): DashboardRole {
    if slug == Some("super_admin") then SuperAdmin
    else if slug == Some("clinic_admin") then ClinicAdmin
    else if slug == Some("empresa") || slug == Some("empresa_admin") then EmpresaAdmin
    else Doctor
  }

  /** Exactly which slugs give which role. */
  lemma SlugToDashboardRoleCases(slug: Option<string>)
    ensures SlugToDashboardRole(slug) == SuperAdmin <==> slug == Some("super_admin")
    ensures SlugToDashboardRole(slug) == ClinicAdmin <==> slug == Some("clinic_admin")
    ensures SlugToDashboardRole(slug) == EmpresaAdmin <==> slug == Some("empresa") || slug == Some("empresa_admin")
    ensures SlugToDashboardRole(slug) == Doctor <==>
      slug.None? || slug.value !in {"super_admin", "clinic_admin", "empresa", "empresa_admin"}
  {
  }

  /** Every role's own name maps back to it. */
  lemma SlugOfRoleName(r: DashboardRole)
    ensures SlugToDashboardRole(Some(RoleName(r))) == r
  {
  }

  /** `getDashboardRoute`. */
  function DashboardRoute(role: DashboardRole): (path: string)
    ensures StartsWith(path, "/dashboard/")
  {
    match role
    case SuperAdmin => "/dashboard/super-admin"
    case ClinicAdmin => "/dashboard/clinica"
    case EmpresaAdmin => "/dashboard/empresa"
    case Doctor => "/dashboard/doctor"
  }

  /** Distinct roles land on distinct dashboards. */
  lemma DashboardRouteInjective(a: DashboardRole, b: DashboardRole)
    ensures DashboardRoute(a) == DashboardRoute(b) ==> a == b
  {
  }

  // ---------------------------------------------------------------------------
  // ADMIN_EMAILS

  /**
   * `split(',').map(e => e.trim().toLowerCase()).filter(Boolean)` on the pieces: each piece
   * trimmed and lower-cased, blanks dropped, order kept.
   */
  function CleanEmails(parts: seq<string>): (emails: seq<string>)
    ensures forall i :: 0 <= i < |emails| ==> emails[i] != ""
    ensures |emails| <= |parts|
  {
    if parts == [] then []
    else
      var e := Lower(Trim(parts[0]));
      if e == "" then CleanEmails(parts[1..]) else [e] + CleanEmails(parts[1..])
  }

  /** `e` is one of the pieces, trimmed and lower-cased, and is not blank. */
  predicate Listed(parts: seq<string>, e: string) {
    e != "" && exists i :: 0 <= i < |parts| && e == Lower(Trim(parts[i]))
  }

  /** The cleaned list holds exactly the non-blank cleaned pieces. */
  lemma {:induction false} CleanEmailsMembers(parts: seq<string>, e: string)
    ensures e in CleanEmails(parts) <==> Listed(parts, e)
  {
    if parts != [] {
      CleanEmailsMembers(parts[1..], e);
      assert forall i :: 0 < i < |parts| ==> parts[i] == parts[1..][i - 1];
      if Listed(parts, e) {
        var i :| 0 <= i < |parts| && e == Lower(Trim(parts[i]));
        if i > 0 {
          assert parts[1..][i - 1] == parts[i];
        }
      }
    }
  }

  /** The admin list from the ADMIN_EMAILS variable; unset reads as the empty string. */
  function AdminEmails(env: Option<string>): seq<string> {
    CleanEmails(Split(if env.Some? then env.value else "", ','))
  }

  /** `isAdminUser`. */
  predicate IsAdminUser(role: DashboardRole, email: Option<string>, env: Option<string>) {
    role == SuperAdmin || Lower(if email.Some? then email.value else "") in AdminEmails(env)
  }

  /**
   * A super admin is always an admin; anyone else is one iff the lower-cased email equals a
   * comma-separated entry of ADMIN_EMAILS after trimming and lower-casing, and is non-empty.
   */
  lemma IsAdminUserCases(role: DashboardRole, email: Option<string>, env: Option<string>)
    ensures var mail := Lower(if email.Some? then email.value else "");
      var parts := Split(if env.Some? then env.value else "", ',');
      IsAdminUser(role, email, env) <==>
        role == SuperAdmin || Listed(parts, mail)
  {
    CleanEmailsMembers(Split(if env.Some? then env.value else "", ','), Lower(if email.Some? then email.value else ""));
  }

  /** Without an email only a super admin is an admin, whatever ADMIN_EMAILS holds. */
  lemma NoEmailOnlySuperAdmin(role: DashboardRole, env: Option<string>)
    ensures IsAdminUser(role, None, env) <==> role == SuperAdmin
  {
    assert Lower("") == "";
  }

  // ---------------------------------------------------------------------------
  // Role sources

  /** A JSON value read from metadata or a row: only a string counts as a role. */
  datatype JsonValue = JNull | JUndefined | JString(s: string) | JOther

  predicate Nullish(v: JsonValue) {
    v.JNull? || v.JUndefined?
  }

  /** The signed-in user as the auth service reports it. */
  datatype AuthUser = AuthUser(id: UserId, email: Option<string>, appRole: JsonValue, userRole: JsonValue)

  /** `getRoleFromMetadata`: `app_metadata.role ?? user_metadata.role`, kept when it is a string. */
  function RoleFromMetadata(user: Option<AuthUser>): Option<string> {
    if user.None? then None
    else
      var role := if Nullish(user.value.appRole) then user.value.userRole else user.value.appRole;
      if role.JString? then Some(role.s) else None
  }

  /**
   * The app role wins whenever it is set; a set app role that is not a string hides the
   * user role, which is read only when the app role is null or undefined.
   */
  lemma MetadataPriority(user: AuthUser)
    ensures user.appRole.JString? ==> RoleFromMetadata(Some(user)) == Some(user.appRole.s)
    ensures user.appRole.JOther? ==> RoleFromMetadata(Some(user)) == None
    ensures Nullish(user.appRole) ==>
      RoleFromMetadata(Some(user)) == (if user.userRole.JString? then Some(user.userRole.s) else None)
  {
  }

  /** One answer of `profiles.select('role').eq(column, id).maybeSingle()`. */
  datatype ProfileLookup = LookupFailed | NoProfileRow | ProfileRow(role: JsonValue)

  function StringRole(answer: ProfileLookup): Option<string> {
    if answer.ProfileRow? && answer.role.JString? then Some(answer.role.s) else None
  }

  /** The columns `getRoleFromProfiles` tries, in order. */
  const ProfileColumns: seq<string> := ["id", "uuid"]

  /** The first string role among the answers for `columns`: every earlier column gave none. */
  function FirstStringRole(query: string -> ProfileLookup, columns: seq<string>): (r: Option<string>)
    ensures r.Some? ==> exists i :: 0 <= i < |columns| && StringRole(query(columns[i])) == r &&
                                    forall j :: 0 <= j < i ==> StringRole(query(columns[j])).None?
    ensures r.None? ==> forall i :: 0 <= i < |columns| ==> StringRole(query(columns[i])).None?
  {
    if columns == [] then None
    else if StringRole(query(columns[0])).Some? then StringRole(query(columns[0]))
    else
      var r := FirstStringRole(query, columns[1..]);
      assert forall i :: 0 < i < |columns| ==> columns[i] == columns[1..][i - 1];
      if r.Some? then
        var i :| 0 <= i < |columns[1..]| && StringRole(query(columns[1..][i])) == r &&
                 forall j :: 0 <= j < i ==> StringRole(query(columns[1..][j])).None?;
        assert StringRole(query(columns[i + 1])) == r;
        assert forall j :: 0 <= j < i + 1 ==> StringRole(query(columns[j])).None?;
        r
      else r
  }

  /**
   * `getRoleFromProfiles`: try each column in turn and return the first string role found;
   * a failed query, a missing row or a non-string role moves on to the next column.
   */
  method RoleFromProfiles(query: string -> ProfileLookup) returns (role: Option<string>)
    ensures role == FirstStringRole(query, ProfileColumns)
    ensures role.Some? ==> StringRole(query("id")) == role ||
                           (StringRole(query("id")).None? && StringRole(query("uuid")) == role)
  {
    var i := 0;
    while i < |ProfileColumns|
      invariant 0 <= i <= |ProfileColumns|
      invariant FirstStringRole(query, ProfileColumns[i..]) == FirstStringRole(query, ProfileColumns)
    {
      var answer := query(ProfileColumns[i]);
      if answer.ProfileRow? && answer.role.JString? {
        return Some(answer.role.s);
      }
      assert ProfileColumns[i..][1..] == ProfileColumns[i + 1..];
      i := i + 1;
    }
    return None;
  }

  /** One answer of `professional_profiles.select('user_types(slug)')...maybeSingle()`. */
  datatype SlugLookup = SlugLookupFailed | NoProfessionalProfile | ProfessionalRow(userTypeSlug: Option<string>)

  /** `getUserTypeSlug`. */
  function UserTypeSlug(answer: SlugLookup): Option<string> {
    if answer.ProfessionalRow? then answer.userTypeSlug else None
  }

  /** The role names the first two sources may set. */
  predicate IsAdminRoleName(name: Option<string>) {
    name == Some("super_admin") || name == Some("clinic_admin") || name == Some("empresa_admin")
  }

  function AdminRoleOf(name: Option<string>): DashboardRole
    requires IsAdminRoleName(name)
  {
    if name == Some("super_admin") then SuperAdmin else if name == Some("clinic_admin") then ClinicAdmin else EmpresaAdmin
  }

  /** `getUserRole`'s decision: metadata, then `profiles.role`, then the user-type slug. */
  function ResolveRole(metadataRole: Option<string>, profilesRole: Option<string>, slug: Option<string>): DashboardRole {
    if IsAdminRoleName(metadataRole) then AdminRoleOf(metadataRole)
    else if IsAdminRoleName(profilesRole) then AdminRoleOf(profilesRole)
    else SlugToDashboardRole(slug)
  }

  /**
   * `getUserRole`. The profile lookups are only made when metadata names no admin role;
   * as their answers are given, reading them eagerly changes nothing.
   */
  method GetUserRole(user: Option<AuthUser>, profiles: string -> ProfileLookup, slugAnswer: SlugLookup)
    returns (role: DashboardRole)
    ensures role == ResolveRole(RoleFromMetadata(user), FirstStringRole(profiles, ProfileColumns), UserTypeSlug(slugAnswer))
  {
    var metadataRole := RoleFromMetadata(user);
    if IsAdminRoleName(metadataRole) {
      return AdminRoleOf(metadataRole);
    }
    var profilesRole := RoleFromProfiles(profiles);
    if IsAdminRoleName(profilesRole) {
      return AdminRoleOf(profilesRole);
    }
    return SlugToDashboardRole(UserTypeSlug(slugAnswer));
  }

  /**
   * The priority chain: a role is taken from the first source naming an admin role, and
   * a user is a doctor exactly when no source gives an admin role. "doctor" or any other
   * value in the first two sources falls through; "empresa" counts only as a slug.
   */
  lemma ResolveRolePriority(m: Option<string>, p: Option<string>, s: Option<string>)
    ensures ResolveRole(m, p, s) == SuperAdmin <==>
      m == Some("super_admin") || (!IsAdminRoleName(m) && p == Some("super_admin")) ||
      (!IsAdminRoleName(m) && !IsAdminRoleName(p) && s == Some("super_admin"))
    ensures ResolveRole(m, p, s) == ClinicAdmin <==>
      m == Some("clinic_admin") || (!IsAdminRoleName(m) && p == Some("clinic_admin")) ||
      (!IsAdminRoleName(m) && !IsAdminRoleName(p) && s == Some("clinic_admin"))
    ensures ResolveRole(m, p, s) == Doctor <==>
      !IsAdminRoleName(m) && !IsAdminRoleName(p) &&
      (s.None? || s.value !in {"super_admin", "clinic_admin", "empresa", "empresa_admin"})
  {
    SlugToDashboardRoleCases(s);
  }

  /** A metadata or profiles value of "empresa" is not a role; only the slug maps it. */
  lemma EmpresaOnlyAsSlug()
    ensures ResolveRole(Some("empresa"), None, None) == Doctor
    ensures ResolveRole(None, Some("empresa"), None) == Doctor
    ensures ResolveRole(None, None, Some("empresa")) == EmpresaAdmin
  {
  }
}
