/**
 * The request router in front of every page (src/middleware.ts): auth pages bounce a
 * signed-in user to their dashboard, protected pages send a signed-out visitor to
 * /login, /dashboard resolves to the role's own dashboard, other dashboards are guarded
 * by role, and /admin admits only admins.
 *
 * The signed-in user, the configured environment and the outcome of the role lookup are
 * parameters; `role` is None when the lookup threw.
 */
module Middleware {
  import opened Database
  import opened Text
  import opened UserRole

  const ProtectedRoutes: seq<string> := ["/dashboard", "/perfil", "/suscripcion", "/facturacion", "/clinica", "/admin"]
  const AuthRoutes: seq<string> := ["/login", "/registro"]

  /** `DASHBOARD_ROLE_PATHS`. */
  function DashboardRolePath(role: DashboardRole): string {
    match role
    case SuperAdmin => "/dashboard/super-admin"
    case ClinicAdmin => "/dashboard/clinica"
    case EmpresaAdmin => "/dashboard/empresa"
    case Doctor => "/dashboard/doctor"
  }

  /** The middleware's own role-path table agrees with `getDashboardRoute`. */
  lemma RolePathsAgree(role: DashboardRole)
    ensures DashboardRolePath(role) == DashboardRoute(role)
  {
  }

  predicate UnderAny(pathname: string, prefixes: seq<string>) {
    exists i :: 0 <= i < |prefixes| && StartsWith(pathname, prefixes[i])
  }

  datatype Decision = Next | Redirect(path: string) | RedirectToLogin(redirectTo: string)

  /** The role's dashboard, or the doctor's when the lookup threw. */
  function DashboardOrDoctor(role: Option<DashboardRole>): string {
    if role.Some? then DashboardRoute(role.value) else "/dashboard/doctor"
  }

  /** The inline admin test of the /admin guard. */
  predicate AdminByRoleOrEmail(role: DashboardRole, user: AuthUser, adminEmails: Option<string>) {
    role == SuperAdmin || Lower(if user.email.Some? then user.email.value else "") in AdminEmails(adminEmails)
  }

  /** `middleware(request)` as a decision on the path. */
  function Decide(configured: bool, user: Option<AuthUser>, pathname: string, role: Option<DashboardRole>,
                  adminEmails: Option<string>): Decision
  {
    if !configured then Next
    else if user.Some? && UnderAny(pathname, AuthRoutes) then Redirect(DashboardOrDoctor(role))
    else if user.None? && UnderAny(pathname, ProtectedRoutes) then RedirectToLogin(pathname)
    else if user.Some? && (pathname == "/dashboard" || pathname == "/dashboard/") then Redirect(DashboardOrDoctor(role))
    else if user.Some? && StartsWith(pathname, "/dashboard/") && role.Some? &&
            !StartsWith(pathname, DashboardRolePath(role.value)) then Redirect(DashboardRolePath(role.value))
    else if user.Some? && StartsWith(pathname, "/admin") then
      if role.None? then Redirect("/dashboard/doctor")
      else if !AdminByRoleOrEmail(role.value, user.value, adminEmails) then Redirect(DashboardRoute(role.value))
      else Next
    else Next
  }

  // ---------------------------------------------------------------------------
  // Properties.

  /** A signed-out visitor is never sent anywhere but to /login, carrying the page asked for. */
  lemma SignedOutOnlyToLogin(configured: bool, pathname: string, role: Option<DashboardRole>, adminEmails: Option<string>)
    ensures var d := Decide(configured, None, pathname, role, adminEmails);
      (d == Next || d == RedirectToLogin(pathname)) &&
      (d == RedirectToLogin(pathname) <==> configured && UnderAny(pathname, ProtectedRoutes))
  {
  }

  /** A signed-in user on /login or /registro goes to their dashboard, or the doctor's when the lookup failed. */
  lemma SignedInLeavesAuthPages(user: AuthUser, pathname: string, role: Option<DashboardRole>, adminEmails: Option<string>)
    requires StartsWith(pathname, "/login") || StartsWith(pathname, "/registro")
    ensures Decide(true, Some(user), pathname, role, adminEmails) ==
      Redirect(if role.Some? then DashboardRoute(role.value) else "/dashboard/doctor")
  {
    if StartsWith(pathname, "/login") {
      assert StartsWith(pathname, AuthRoutes[0]);
    } else {
      assert StartsWith(pathname, AuthRoutes[1]);
    }
  }

  /** A path is under none of `prefixes` when its second character differs from each prefix's. */
  lemma SecondCharExcludes(pathname: string, prefixes: seq<string>)
    requires |pathname| >= 2
    requires forall i :: 0 <= i < |prefixes| ==> |prefixes[i]| >= 2 && prefixes[i][1] != pathname[1]
    ensures !UnderAny(pathname, prefixes)
  {
    forall i | 0 <= i < |prefixes|
      ensures !StartsWith(pathname, prefixes[i])
    {
      if |prefixes[i]| <= |pathname| {
        assert pathname[..|prefixes[i]|][1] != prefixes[i][1];
      }
    }
  }

  /** A path under /dashboard/ is neither an auth page nor /admin. */
  lemma DashboardPathClassified(pathname: string)
    requires StartsWith(pathname, "/dashboard/")
    ensures !UnderAny(pathname, AuthRoutes) && !StartsWith(pathname, "/admin")
  {
    assert pathname[1] == "/dashboard/"[1];
    SecondCharExcludes(pathname, AuthRoutes);
    SecondCharExcludes(pathname, ["/admin"]);
    assert !StartsWith(pathname, ["/admin"][0]);
  }

  /**
   * Under /dashboard/ a signed-in user with a known role passes exactly on their own
   * dashboard's prefix and is sent there otherwise.
   */
  lemma DashboardGuard(user: AuthUser, pathname: string, role: DashboardRole, adminEmails: Option<string>)
    requires StartsWith(pathname, "/dashboard/") && pathname != "/dashboard/"
    ensures Decide(true, Some(user), pathname, Some(role), adminEmails) ==
      (if StartsWith(pathname, DashboardRoute(role)) then Next else Redirect(DashboardRoute(role)))
  {
    DashboardPathClassified(pathname);
  }

  /** /admin admits a signed-in user exactly when `isAdminUser` holds for their role and email. */
  lemma AdminGuard(user: AuthUser, pathname: string, role: Option<DashboardRole>, adminEmails: Option<string>)
    requires StartsWith(pathname, "/admin")
    ensures var d := Decide(true, Some(user), pathname, role, adminEmails);
      (d == Next <==> role.Some? && IsAdminUser(role.value, user.email, adminEmails)) &&
      (d != Next ==> d == Redirect(DashboardOrDoctor(role)))
  {
    assert pathname[1] == "/admin"[1];
    SecondCharExcludes(pathname, AuthRoutes);
    SecondCharExcludes(pathname, ["/dashboard/"]);
    assert !StartsWith(pathname, ["/dashboard/"][0]);
    assert pathname != "/dashboard" && pathname != "/dashboard/";
    if role.Some? {
      assert AdminByRoleOrEmail(role.value, user, adminEmails) == IsAdminUser(role.value, user.email, adminEmails);
    }
  }

  /**
   * No redirect loops: following any redirect with the same session and the same lookup
   * outcome lets the request through.
   */
  lemma RedirectTargetsAreStable(configured: bool, user: Option<AuthUser>, pathname: string,
                                 role: Option<DashboardRole>, adminEmails: Option<string>)
    ensures var d := Decide(configured, user, pathname, role, adminEmails);
      (d.Redirect? ==> Decide(configured, user, d.path, role, adminEmails) == Next) &&
      (d.RedirectToLogin? ==> Decide(configured, user, "/login", role, adminEmails) == Next)
  {
    var d := Decide(configured, user, pathname, role, adminEmails);
    if d.Redirect? {
      var target := d.path;
      assert target == DashboardOrDoctor(role) || (role.Some? && target == DashboardRolePath(role.value));
      if role.Some? {
        RolePathsAgree(role.value);
        assert target == DashboardRolePath(role.value);
      } else {
        assert target == "/dashboard/doctor";
      }
      assert StartsWith(target, "/dashboard/");
      DashboardPathClassified(target);
      assert target != "/dashboard" && target != "/dashboard/";
    }
    if d.RedirectToLogin? {
      assert user.None?;
      SecondCharExcludes("/login", ProtectedRoutes);
    }
  }
}
