/**
 * The routing decision of the Next.js middleware: from the session token (or
 * its absence) and the request path it either lets the request through,
 * redirects it, or answers 403.  Path tests are prefix tests (`startsWith`).
 */
module Middleware {
  import opened Wrappers

  /** The JWT the middleware sees; `roles` may be absent. */
  datatype Token = Token(roles: Option<seq<string>>)

  /** `NextResponse.next()`, a redirect to a path, or the JSON 403 `Forbidden` answer. */
  datatype Response = Next | Redirect(location: string) | Forbidden

  predicate StartsWith(s: string, prefix: string) {
    |prefix| <= |s| && s[..|prefix|] == prefix
  }

  /** `paths.some(path => pathname.startsWith(path))`. */
  function AnyPrefix(pathname: string, paths: seq<string>): (b: bool)
    ensures b <==> exists i :: 0 <= i < |paths| && StartsWith(pathname, paths[i])
  {
    if paths == [] then false
    else StartsWith(pathname, paths[0]) || AnyPrefix(pathname, paths[1..])
  }

  const AllowedAdminPaths: seq<string> := ["/admin", "/admin/program-studi", "/admin/users"]

  const AllowedProdiPaths: seq<string> := [
    "/admin", "/admin/kurikulum", "/admin/cpl", "/admin/mata-kuliah", "/admin/cpmk",
    "/admin/mapping-cpl", "/admin/mapping-cpl-cpmk", "/admin/mapping-kurikulum-cpl",
    "/admin/mapping-cpl-mk", "/admin/profil-lulusan", "/admin/bahan-kajian"]

  const AllowedAdminApiPaths: seq<string> := ["/api/admin/program-studi", "/api/admin/users"]

  const AllowedProdiApiPaths: seq<string> := [
    "/api/admin/kurikulum", "/api/admin/cpl", "/api/admin/mata-kuliah", "/api/admin/cpmk",
    "/api/admin/mapping-cpl", "/api/admin/mapping-cpl-cpmk", "/api/admin/mapping-kurikulum-cpl",
    "/api/admin/mapping-cpl-mk", "/api/admin/profil-lulusan", "/api/admin/bahan-kajian"]

  /** `token.roles || []`. */
  function RolesOf(token: Token): seq<string> {
    if token.roles.Some? then token.roles.value else []
  }

  /** The `/admin` page block: a response when it answers, None when it falls through. */
  function AdminPageCheck(roles: seq<string>, pathname: string): Option<Response> {
    var isAdmin := "admin" in roles;
    var isProdi := "prodi" in roles;
    if !isAdmin && !isProdi then Some(Redirect("/dashboard"))
    else if isAdmin && !AnyPrefix(pathname, AllowedAdminPaths) then Some(Redirect("/admin"))
    else if isProdi && !isAdmin && !AnyPrefix(pathname, AllowedProdiPaths) then Some(Redirect("/admin"))
    else None
  }

  /** The `/api/admin` block: a response when it answers, None when it falls through. */
  function AdminApiCheck(roles: seq<string>, pathname: string): Option<Response> {
    var isAdmin := "admin" in roles;
    var isProdi := "prodi" in roles;
    if !isAdmin && !isProdi then Some(Forbidden)
    else if isAdmin && !isProdi && !AnyPrefix(pathname, AllowedAdminApiPaths) then Some(Forbidden)
    else if isProdi && !AnyPrefix(pathname, AllowedProdiApiPaths) && !isAdmin then Some(Forbidden)
    else None
  }

  /** The role-based blocks, in source order, for an authenticated request. */
  function RoleGate(roles: seq<string>, pathname: string): Response {
    var admin := if StartsWith(pathname, "/admin") then AdminPageCheck(roles, pathname) else None;
    if admin.Some? then admin.value
    else if StartsWith(pathname, "/lecturer") && "lecturer" !in roles then Redirect("/dashboard")
    else if StartsWith(pathname, "/student") && "student" !in roles then Redirect("/dashboard")
    else
      var api := if StartsWith(pathname, "/api/admin") then AdminApiCheck(roles, pathname) else None;
      if api.Some? then api.value
      else if StartsWith(pathname, "/api/lecturer") && "lecturer" !in roles then Forbidden
      else if StartsWith(pathname, "/api/student") && "student" !in roles then Forbidden
      else Next
  }

  /** The middleware's answer to a request for `pathname` with `token` (None when not signed in). */
  function Decide(token: Option<Token>, pathname: string): Response {
    var isAuth := token.Some?;
    var isAuthPage := StartsWith(pathname, "/login");
    var isApiAuthRoute := StartsWith(pathname, "/api/auth");
    if !isAuth && !isAuthPage && !isApiAuthRoute then Redirect("/login")
    else if isAuth && isAuthPage then Redirect("/dashboard")
    else if isAuth then RoleGate(RolesOf(token.value), pathname)
    else Next
  }

  // ---------------------------------------------------------------------------
  // Properties
  // ---------------------------------------------------------------------------

  /** Two prefixes that differ at position `k` cannot both start the same path. */
  lemma PrefixesClash(p: string, a: string, b: string, k: nat)
    requires k < |a| && k < |b| && a[k] != b[k]
    ensures !(StartsWith(p, a) && StartsWith(p, b))
  {
    if StartsWith(p, a) {
      assert p[..|a|][k] == p[k];
    }
    if StartsWith(p, b) {
      assert p[..|b|][k] == p[k];
    }
  }

  /** A path under a prefix is under every shorter prefix of it. */
  lemma StartsWithShorter(p: string, a: string, b: string)
    requires StartsWith(p, a) && StartsWith(a, b)
    ensures StartsWith(p, b)
  {
    assert p[..|b|] == p[..|a|][..|b|];
  }

  /**
   * Without a token the request goes to /login, unless it is for the login
   * page or the auth API, which pass.
   */
  lemma UnauthenticatedRequests(pathname: string)
    ensures Decide(None, pathname) == Redirect("/login") <==>
              !StartsWith(pathname, "/login") && !StartsWith(pathname, "/api/auth")
    ensures Decide(None, pathname) != Redirect("/login") ==> Decide(None, pathname) == Next
  {
  }

  /** A signed-in user asking for the login page goes to /dashboard, before any role check. */
  lemma AuthenticatedLoginPage(token: Token, pathname: string)
    requires StartsWith(pathname, "/login")
    ensures Decide(Some(token), pathname) == Redirect("/dashboard")
  {
  }

  /**
   * Under /admin a user with neither `admin` nor `prodi` goes to /dashboard,
   * and a user with either passes: both allow-lists contain /admin itself.
   */
  lemma AdminPages(token: Token, pathname: string)
    requires StartsWith(pathname, "/admin")
    ensures var roles := RolesOf(token);
            Decide(Some(token), pathname) == (if "admin" in roles || "prodi" in roles then Next else Redirect("/dashboard"))
  {
    assert StartsWith(pathname, AllowedAdminPaths[0]);
    assert StartsWith(pathname, AllowedProdiPaths[0]);
    PrefixesClash(pathname, "/admin", "/login", 1);
    PrefixesClash(pathname, "/admin", "/lecturer", 1);
    PrefixesClash(pathname, "/admin", "/student", 1);
    PrefixesClash(pathname, "/admin", "/api/admin", 2);
    PrefixesClash(pathname, "/admin", "/api/lecturer", 2);
    PrefixesClash(pathname, "/admin", "/api/student", 2);
  }

  /** /lecturer pages need the `lecturer` role, /student pages the `student` role; otherwise /dashboard. */
  lemma LecturerAndStudentPages(token: Token, pathname: string)
    ensures StartsWith(pathname, "/lecturer") ==>
              Decide(Some(token), pathname) == (if "lecturer" in RolesOf(token) then Next else Redirect("/dashboard"))
    ensures StartsWith(pathname, "/student") ==>
              Decide(Some(token), pathname) == (if "student" in RolesOf(token) then Next else Redirect("/dashboard"))
  {
    if StartsWith(pathname, "/lecturer") {
      PrefixesClash(pathname, "/lecturer", "/login", 2);
      PrefixesClash(pathname, "/lecturer", "/admin", 1);
      PrefixesClash(pathname, "/lecturer", "/student", 1);
      PrefixesClash(pathname, "/lecturer", "/api/admin", 1);
      PrefixesClash(pathname, "/lecturer", "/api/lecturer", 1);
      PrefixesClash(pathname, "/lecturer", "/api/student", 1);
    }
    if StartsWith(pathname, "/student") {
      PrefixesClash(pathname, "/student", "/login", 1);
      PrefixesClash(pathname, "/student", "/admin", 1);
      PrefixesClash(pathname, "/student", "/lecturer", 1);
      PrefixesClash(pathname, "/student", "/api/admin", 1);
      PrefixesClash(pathname, "/student", "/api/lecturer", 1);
      PrefixesClash(pathname, "/student", "/api/student", 1);
    }
  }

  /**
   * Under /api/admin: neither role is refused; `admin` alone passes only the
   * program-studi and users endpoints; `prodi` alone passes only the prodi
   * list; both roles always pass.
   */
  lemma AdminApi(token: Token, pathname: string)
    requires StartsWith(pathname, "/api/admin")
    ensures var roles := RolesOf(token);
            var isAdmin, isProdi := "admin" in roles, "prodi" in roles;
            Decide(Some(token), pathname) ==
              if !isAdmin && !isProdi then Forbidden
              else if isAdmin && !isProdi then (if AnyPrefix(pathname, AllowedAdminApiPaths) then Next else Forbidden)
              else if !isAdmin && isProdi then (if AnyPrefix(pathname, AllowedProdiApiPaths) then Next else Forbidden)
              else Next
  {
    PrefixesClash(pathname, "/api/admin", "/login", 1);
    PrefixesClash(pathname, "/api/admin", "/admin", 2);
    PrefixesClash(pathname, "/api/admin", "/lecturer", 1);
    PrefixesClash(pathname, "/api/admin", "/student", 1);
    PrefixesClash(pathname, "/api/admin", "/api/lecturer", 5);
    PrefixesClash(pathname, "/api/admin", "/api/student", 5);
  }

  /** /api/lecturer needs `lecturer` and /api/student needs `student`; otherwise 403. */
  lemma LecturerAndStudentApi(token: Token, pathname: string)
    ensures StartsWith(pathname, "/api/lecturer") ==>
              Decide(Some(token), pathname) == (if "lecturer" in RolesOf(token) then Next else Forbidden)
    ensures StartsWith(pathname, "/api/student") ==>
              Decide(Some(token), pathname) == (if "student" in RolesOf(token) then Next else Forbidden)
  {
    if StartsWith(pathname, "/api/lecturer") {
      PrefixesClash(pathname, "/api/lecturer", "/login", 1);
      PrefixesClash(pathname, "/api/lecturer", "/admin", 2);
      PrefixesClash(pathname, "/api/lecturer", "/lecturer", 1);
      PrefixesClash(pathname, "/api/lecturer", "/student", 1);
      PrefixesClash(pathname, "/api/lecturer", "/api/admin", 5);
    }
    if StartsWith(pathname, "/api/student") {
      PrefixesClash(pathname, "/api/student", "/login", 1);
      PrefixesClash(pathname, "/api/student", "/admin", 2);
      PrefixesClash(pathname, "/api/student", "/lecturer", 1);
      PrefixesClash(pathname, "/api/student", "/student", 1);
      PrefixesClash(pathname, "/api/student", "/api/admin", 5);
      PrefixesClash(pathname, "/api/student", "/api/lecturer", 5);
    }
  }

  /** A signed-in request outside every guarded prefix passes. */
  lemma UnguardedPathsPass(token: Token, pathname: string)
    requires !StartsWith(pathname, "/login") && !StartsWith(pathname, "/admin")
    requires !StartsWith(pathname, "/lecturer") && !StartsWith(pathname, "/student")
    requires !StartsWith(pathname, "/api/admin") && !StartsWith(pathname, "/api/lecturer")
    requires !StartsWith(pathname, "/api/student")
    ensures Decide(Some(token), pathname) == Next
  {
  }

  /**
   * Over all tokens and paths: a redirect goes to /login (only without a
   * token) or to /dashboard, never to /admin, and a 403 only answers an
   * /api/ path of a signed-in user.
   */
  lemma ResponsesReachable(token: Option<Token>, pathname: string)
    ensures Decide(token, pathname).Redirect? ==>
              (Decide(token, pathname).location == "/login" && token.None?) ||
              Decide(token, pathname).location == "/dashboard"
    ensures Decide(token, pathname) == Forbidden ==> token.Some? && StartsWith(pathname, "/api/")
  {
    if token.Some? {
      if StartsWith(pathname, "/admin") {
        AdminPages(token.value, pathname);
      }
      if StartsWith(pathname, "/api/admin") {
        assert "/api/admin"[..5] == "/api/";
        StartsWithShorter(pathname, "/api/admin", "/api/");
      }
      if StartsWith(pathname, "/api/lecturer") {
        assert "/api/lecturer"[..5] == "/api/";
        StartsWithShorter(pathname, "/api/lecturer", "/api/");
      }
      if StartsWith(pathname, "/api/student") {
        assert "/api/student"[..5] == "/api/";
        StartsWithShorter(pathname, "/api/student", "/api/");
      }
    }
  }
}
