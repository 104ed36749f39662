/**
 * The web app's route guard: which paths are public, which roles a path
 * requires, where a signed-in user without the role is sent, and when the
 * sign-in layer lets a request through at all.
 *
 * The role lookup is written once, over the public-route test it starts
 * with, so that the route list as written and the corrected list (see the
 * findings) share the lookup and its proofs.
 */
module Middleware {
  import opened Seqs
  import opened Auth

  /** One row of the route-to-roles table. */
  datatype RouteRule = RouteRule(route: string, roles: seq<UserRole>)

  /** The route-to-roles table, in declaration order. */
  const RoleTable: seq<RouteRule> := [
    RouteRule("/dashboard", [Candidate, Admin]),
    RouteRule("/documents", [Candidate, Admin]),
    RouteRule("/guides", [Candidate, Admin]),
    RouteRule("/templates", [Candidate, Admin]),
    RouteRule("/shop", [Candidate, Admin]),
    RouteRule("/campaign-shop", [Candidate, Admin]),
    RouteRule("/voter-crm", [Candidate, Admin]),
    RouteRule("/education", [Candidate, Admin]),
    RouteRule("/profile", [Candidate, Admin]),
    RouteRule("/announcements", [Candidate, Admin]),
    RouteRule("/policies", [Candidate, Admin, Viewer]),
    RouteRule("/help", [Candidate, Admin, Viewer]),
    RouteRule("/onboarding", [Candidate, Admin, Viewer])
  ]

  /** The routes that need no sign-in. */
  const PublicRoutes: seq<string> := [
    "/", "/auth/login", "/auth/verify-otp", "/auth/error", "/auth/unauthorized",
    "/api/auth", "/api", "/_next", "/favicon.ico", "/images", "/assets"
  ]

  const AllRoles: seq<UserRole> := [Candidate, Admin, Viewer]

  /** `route` ends with a `/`. */
  predicate EndsWithSlash(route: string) {
    |route| > 0 && route[|route| - 1] == '/'
  }

  /**
   * How one public route matches a path: a route ending in `/` covers every
   * path it prefixes; any other route covers itself and the paths below it.
   */
  predicate RouteMatches(route: string, path: string) {
    if EndsWithSlash(route) then route <= path
    else path == route || route + "/" <= path
  }

  /** `isPublicRoute(pathname)`: some public route matches. */
  predicate IsPublicRoute(path: string) {
    exists i :: 0 <= i < |PublicRoutes| && RouteMatches(PublicRoutes[i], path)
  }

  /**
   * Because the list holds `"/"`, which ends in `/`, every path that starts
   * with `/` is public, and no other path is.
   */
  lemma PublicIffRooted(path: string)
    ensures IsPublicRoute(path) <==> "/" <= path
  {
    if "/" <= path {
      assert RouteMatches(PublicRoutes[0], path);
    }
    if IsPublicRoute(path) {
      var i :| 0 <= i < |PublicRoutes| && RouteMatches(PublicRoutes[i], path);
      var r := PublicRoutes[i];
      assert r[0] == '/';
      assert |path| > 0 && path[0] == '/' by {
        if EndsWithSlash(r) {
          assert r <= path;
        } else if path == r {
        } else {
          assert r + "/" <= path;
          assert (r + "/")[0] == '/';
        }
      }
    }
  }

  /**
   * The first table rule whose route is the path itself or a parent of it,
   * searching in table order.
   */
  function FirstRule(table: seq<RouteRule>, path: string): (r: Option<nat>)
    ensures r.Some? ==> r.value < |table| && Covers(table[r.value].route, path)
    ensures r.Some? ==> forall j :: 0 <= j < r.value ==> !Covers(table[j].route, path)
    ensures r.None? <==> forall j :: 0 <= j < |table| ==> !Covers(table[j].route, path)
  {
    if table == [] then None
    else if Covers(table[0].route, path) then Some(0)
    else
      match FirstRule(table[1..], path)
      case None => None
      case Some(k) => Some(k + 1)
  }

  /** The loop's test: `pathname.startsWith(route + '/') || pathname === route`. */
  predicate Covers(route: string, path: string) {
    route + "/" <= path || path == route
  }

  /** `roleBasedAccess[pathname]`: the rule whose key is the path, if any. */
  function ExactRule(table: seq<RouteRule>, path: string): (r: Option<nat>)
    ensures r.Some? ==> r.value < |table| && table[r.value].route == path
    ensures r.Some? ==> forall j :: 0 <= j < r.value ==> table[j].route != path
    ensures r.None? <==> forall j :: 0 <= j < |table| ==> table[j].route != path
  {
    if table == [] then None
    else if table[0].route == path then Some(0)
    else
      match ExactRule(table[1..], path)
      case None => None
      case Some(k) => Some(k + 1)
  }

  /**
   * `getRoleForPath` over a public-route test: none for public paths, then
   * the exact key, then the first parent route, then every role.
   */
  function RolesFor(isPublic: string -> bool, path: string): (roles: seq<UserRole>)
  {
    if isPublic(path) then []
    else match ExactRule(RoleTable, path)
      case Some(i) => RoleTable[i].roles
      case None =>
        match FirstRule(RoleTable, path)
        case Some(i) => RoleTable[i].roles
        case None => AllRoles
  }

  /** A route of one segment: a `/` followed by a name without `/`. */
  predicate OneSegment(route: string) {
    |route| >= 2 && route[0] == '/' && forall k :: 1 <= k < |route| ==> route[k] != '/'
  }

  /** Every table route is a single distinct segment. */
  lemma TableShape()
    ensures forall i :: 0 <= i < |RoleTable| ==> OneSegment(RoleTable[i].route)
    ensures forall i, j :: 0 <= i < j < |RoleTable| ==> RoleTable[i].route != RoleTable[j].route
  {
    TableSegments();
    TableDistinct();
  }

  lemma TableSegments()
    ensures forall i :: 0 <= i < |RoleTable| ==> OneSegment(RoleTable[i].route)
  {
  }

  lemma TableDistinct()
    ensures forall i, j :: 0 <= i < j < |RoleTable| ==> RoleTable[i].route != RoleTable[j].route
  {
  }

  /**
   * Within the table, a route covers a table route followed by a subpath
   * (empty or starting with `/`) only when it is that very route.
   */
  lemma CoverIsOwnRule(j: nat, i: nat, suffix: string)
    requires j < |RoleTable| && i < |RoleTable|
    requires suffix == "" || suffix[0] == '/'
    ensures Covers(RoleTable[j].route, RoleTable[i].route + suffix) <==> j == i
  {
    TableShape();
    var t, r := RoleTable[i].route, RoleTable[j].route;
    var p := t + suffix;
    assert p[..|t|] == t;
    if j == i && suffix != "" {
      assert t + "/" <= p;
    } else if j != i {
      assert p != r;
      if r + "/" <= p {
        SlashAfterPrefix(r, p);
        assert false;
      }
    }
  }

  lemma SlashAfterPrefix(r: string, p: string)
    requires r + "/" <= p
    ensures |r| < |p| && p[|r|] == '/' && p[..|r|] == r
  {
    assert (r + "/")[|r|] == '/';
  }

  /**
   * The lookup's order of precedence. A public path needs no role. Otherwise
   * the roles are those of the first rule covering the path, or every role
   * when none does; in each case the list is non-empty. (The exact-key step
   * agrees with the first covering rule, since no table route covers
   * another.)
   */
  lemma RolesForPrecedence(isPublic: string -> bool, path: string)
    ensures isPublic(path) ==> RolesFor(isPublic, path) == []
    ensures !isPublic(path) ==>
      match FirstRule(RoleTable, path)
      case Some(i) => RolesFor(isPublic, path) == RoleTable[i].roles
      case None => RolesFor(isPublic, path) == AllRoles
    ensures !isPublic(path) ==> |RolesFor(isPublic, path)| > 0
  {
    if !isPublic(path) {
      match ExactRule(RoleTable, path)
      case Some(i) =>
        assert path == RoleTable[i].route + "";
        var f := FirstRule(RoleTable, path);
        CoverIsOwnRule(i, i, "");
        assert f.Some?;
        CoverIsOwnRule(f.value, i, "");
      case None =>
    }
  }

  /** `getRoleForPath` as written. */
  function GetRoleForPath(path: string): (roles: seq<UserRole>)
    ensures "/" <= path ==> roles == []
  {
    PublicIffRooted(path);
    RolesFor(IsPublicRoute, path)
  }

  /** Where a signed-in user lacking the role is redirected. */
  function RedirectTarget(role: Option<UserRole>): (target: string)
    ensures role == Some(Candidate) ==> target == "/dashboard"
    ensures role == Some(Admin) || role == Some(Viewer) ==> target == "/candidates"
    ensures role.None? ==> target == "/auth/login"
  {
    match role
    case Some(Candidate) => "/dashboard"
    case Some(_) => "/candidates"
    case None => "/auth/login"
  }

  /** What the middleware does with one request. */
  datatype Decision = Next | Redirect(target: string)

  /** The middleware body over a role lookup. */
  function Decide(required: seq<UserRole>, role: Option<UserRole>): (d: Decision)
    ensures d == Next <==> required == [] || (role.Some? && role.value in required)
    ensures d != Next ==> d == Redirect(RedirectTarget(role))
  {
    if |required| > 0 && (role.None? || role.value !in required) then
      Redirect(RedirectTarget(role))
    else Next
  }

  /**
   * The middleware as written: a request goes through when the path needs
   * no role or the user holds one of them, and is redirected otherwise.
   */
  function Middleware(path: string, role: Option<UserRole>): (d: Decision)
    ensures d == Next <==> GetRoleForPath(path) == [] || (role.Some? && role.value in GetRoleForPath(path))
    ensures d != Next ==> d == Redirect(RedirectTarget(role))
  {
    Decide(GetRoleForPath(path), role)
  }

  /**
   * As written, the role table never takes effect: every path starting with
   * `/` is public, so the middleware lets every such request through, even
   * one without a role on a candidate-only route.
   */
  lemma MiddlewareAlwaysNext(path: string, role: Option<UserRole>)
    requires "/" <= path
    ensures Middleware(path, role) == Next
  {
  }

  /** A concrete instance: a viewer reaches the candidate-only dashboard. */
  lemma ViewerReachesDashboard()
    ensures Middleware("/dashboard", Some(Viewer)) == Next
    ensures Middleware("/dashboard/settings", None) == Next
  {
    MiddlewareAlwaysNext("/dashboard", Some(Viewer));
    MiddlewareAlwaysNext("/dashboard/settings", None);
  }

  /**
   * The `authorized` callback: public paths pass, others need a token. As
   * written, it asks for a token only on paths that do not start with `/`:
   * every rooted path is admitted without one.
   */
  function Authorized(path: string, hasToken: bool): (ok: bool)
    ensures ok <==> "/" <= path || hasToken
  {
    PublicIffRooted(path);
    IsPublicRoute(path) || hasToken
  }

  /** The root page matched as the exact path `/`, every other route as written. */
  predicate RouteMatchesFixed(route: string, path: string) {
    if route == "/" then path == "/" else RouteMatches(route, path)
  }

  /**
   * `isPublicRoute` with the root entry matching only the root page: a path
   * is public when it is `/` or some other public route matches it.
   */
  predicate IsPublicRouteFixed(path: string)
    ensures IsPublicRouteFixed(path) <==>
      path == "/" || exists i :: 1 <= i < |PublicRoutes| && RouteMatches(PublicRoutes[i], path)
  {
    assert RouteMatchesFixed(PublicRoutes[0], path) <==> path == "/";
    exists i :: 0 <= i < |PublicRoutes| && RouteMatchesFixed(PublicRoutes[i], path)
  }

  /**
   * `getRoleForPath` over the corrected public-route test: no role for a
   * public path, and otherwise the roles of the first rule covering the
   * path, or every role when none does.
   */
  function GetRoleForPathFixed(path: string): (roles: seq<UserRole>)
    ensures IsPublicRouteFixed(path) ==> roles == []
    ensures !IsPublicRouteFixed(path) ==>
      match FirstRule(RoleTable, path)
      case Some(i) => roles == RoleTable[i].roles
      case None => roles == AllRoles
  {
    RolesForPrecedence(IsPublicRouteFixed, path);
    RolesFor(IsPublicRouteFixed, path)
  }

  /**
   * The middleware over the corrected public-route test: the root page is
   * open, and elsewhere a user without a required role is redirected.
   */
  function MiddlewareFixed(path: string, role: Option<UserRole>): (d: Decision)
    ensures path == "/" ==> d == Next
    ensures d == Next <==> GetRoleForPathFixed(path) == [] || (role.Some? && role.value in GetRoleForPathFixed(path))
    ensures d != Next ==> d == Redirect(RedirectTarget(role))
  {
    Decide(GetRoleForPathFixed(path), role)
  }

  /** Every public route other than the root differs from every table route in its second or third character. */
  lemma PublicTableApart()
    ensures forall k, i :: 1 <= k < |PublicRoutes| && 0 <= i < |RoleTable| ==>
      |PublicRoutes[k]| >= 3 && |RoleTable[i].route| >= 3 &&
      (PublicRoutes[k][1] != RoleTable[i].route[1] || PublicRoutes[k][2] != RoleTable[i].route[2])
  {
  }

  /** The table's routes and the paths below them are not public under the corrected test. */
  lemma TableRoutesNotPublic(i: nat, suffix: string)
    requires i < |RoleTable|
    requires suffix == "" || suffix[0] == '/'
    ensures !IsPublicRouteFixed(RoleTable[i].route + suffix)
  {
    var p := RoleTable[i].route + suffix;
    PublicTableApart();
    assert p != "/" by {
      assert |RoleTable[i].route| >= 3;
    }
    forall k | 1 <= k < |PublicRoutes|
      ensures !RouteMatches(PublicRoutes[k], p)
    {
      var r, t := PublicRoutes[k], RoleTable[i].route;
      assert p[1] == t[1] && p[2] == t[2];
      assert !EndsWithSlash(r);
    }
  }

  /**
   * With the correction, a table route and the paths below it require that
   * rule's roles, and no other rule interferes.
   */
  lemma FixedTableApplies(i: nat, suffix: string)
    requires i < |RoleTable|
    requires suffix == "" || suffix[0] == '/'
    ensures GetRoleForPathFixed(RoleTable[i].route + suffix) == RoleTable[i].roles
  {
    var p := RoleTable[i].route + suffix;
    TableRoutesNotPublic(i, suffix);
    RolesForPrecedence(IsPublicRouteFixed, p);
    CoverIsOwnRule(i, i, suffix);
    var f := FirstRule(RoleTable, p);
    CoverIsOwnRule(f.value, i, suffix);
  }

  /** With the correction, `/dashboard` needs a candidate or an administrator. */
  lemma DashboardRolesFixed()
    ensures GetRoleForPathFixed("/dashboard") == [Candidate, Admin]
  {
    FixedTableApplies(0, "");
    assert RoleTable[0].route + "" == "/dashboard";
  }

  /** With the correction, `/dashboard/settings` falls under the `/dashboard` rule. */
  lemma DashboardSettingsRolesFixed()
    ensures GetRoleForPathFixed("/dashboard/settings") == [Candidate, Admin]
  {
    var p := "/dashboard/settings";
    assert p[..10] == RoleTable[0].route;
    assert p[10..][0] == '/';
    FixedTableApplies(0, p[10..]);
    assert p[..10] + p[10..] == p;
  }

  /** The corrected guard sends a viewer on the dashboard to the candidates page. */
  lemma FixedViewerRedirected()
    ensures MiddlewareFixed("/dashboard", Some(Viewer)) == Redirect("/candidates")
    ensures MiddlewareFixed("/dashboard/settings", None) == Redirect("/auth/login")
    ensures MiddlewareFixed("/", None) == Next
  {
    DashboardRolesFixed();
    DashboardSettingsRolesFixed();
  }
}
