/**
 * The role and permission predicates over a next-auth session.  A missing
 * session, user, role list or permission list answers false.
 */
module Auth {
  import opened Wrappers

  /** The session's user: the role names and permission names it carries, each possibly absent. */
  datatype SessionUser = SessionUser(roles: Option<seq<string>>, permissions: Option<seq<string>>)

  datatype Session = Session(user: Option<SessionUser>)

  /** `session?.user?.roles?.includes(role) || false`. */
  function HasRole(session: Option<Session>, role: string): (b: bool)
    ensures b <==> session.Some? && session.value.user.Some? && session.value.user.value.roles.Some?
                   && role in session.value.user.value.roles.value
  {
    match session
    case None => false
    case Some(s) =>
      match s.user
      case None => false
      case Some(u) =>
        match u.roles
        case None => false
        case Some(rs) => role in rs
  }

  /** `session?.user?.permissions?.includes(permission) || false`. */
  function HasPermission(session: Option<Session>, permission: string): (b: bool)
    ensures b <==> session.Some? && session.value.user.Some? && session.value.user.value.permissions.Some?
                   && permission in session.value.user.value.permissions.value
  {
    match session
    case None => false
    case Some(s) =>
      match s.user
      case None => false
      case Some(u) =>
        match u.permissions
        case None => false
        case Some(ps) => permission in ps
  }

  /** `roles.some(role => hasRole(session, role))`. */
  function HasAnyRole(session: Option<Session>, roles: seq<string>): (b: bool)
    ensures b <==> exists i :: 0 <= i < |roles| && HasRole(session, roles[i])
  {
    if roles == [] then false
    else HasRole(session, roles[0]) || HasAnyRole(session, roles[1..])
  }

  /** `permissions.some(permission => hasPermission(session, permission))`. */
  function HasAnyPermission(session: Option<Session>, permissions: seq<string>): (b: bool)
    ensures b <==> exists i :: 0 <= i < |permissions| && HasPermission(session, permissions[i])
  {
    if permissions == [] then false
    else HasPermission(session, permissions[0]) || HasAnyPermission(session, permissions[1..])
  }

  /** The roles the session carries, empty when any link is missing. */
  function SessionRoles(session: Option<Session>): seq<string> {
    if session.Some? && session.value.user.Some? && session.value.user.value.roles.Some?
    then session.value.user.value.roles.value else []
  }

  function IsAdmin(session: Option<Session>): (b: bool)
    ensures b <==> "admin" in SessionRoles(session)
  {
    HasRole(session, "admin")
  }

  function IsLecturer(session: Option<Session>): (b: bool)
    ensures b <==> "lecturer" in SessionRoles(session)
  {
    HasRole(session, "lecturer")
  }

  function IsStudent(session: Option<Session>): (b: bool)
    ensures b <==> "student" in SessionRoles(session)
  {
    HasRole(session, "student")
  }

  /**
   * `hasAnyRole` asks whether the two role lists share a name: no session and
   * an empty list both answer false, and a one-name list is `hasRole`.
   */
  lemma {:induction false} HasAnyRoleSharesARole(session: Option<Session>, roles: seq<string>)
    ensures HasAnyRole(session, roles) <==> exists r :: r in roles && r in SessionRoles(session)
    ensures session.None? || roles == [] ==> !HasAnyRole(session, roles)
    ensures |roles| == 1 ==> HasAnyRole(session, roles) == HasRole(session, roles[0])
  {
    if roles != [] {
      HasAnyRoleSharesARole(session, roles[1..]);
      assert HasRole(session, roles[0]) <==> roles[0] in SessionRoles(session);
      assert forall r :: r in roles <==> r == roles[0] || r in roles[1..];
    }
  }

  /** Asking about a concatenation of role lists is asking about either list. */
  lemma {:induction false} HasAnyRoleAppend(session: Option<Session>, xs: seq<string>, ys: seq<string>)
    ensures HasAnyRole(session, xs + ys) == (HasAnyRole(session, xs) || HasAnyRole(session, ys))
  {
    if xs == [] {
      assert xs + ys == ys;
    } else {
      assert (xs + ys)[1..] == xs[1..] + ys;
      HasAnyRoleAppend(session, xs[1..], ys);
    }
  }

  /** The same for permissions. */
  lemma {:induction false} HasAnyPermissionAppend(session: Option<Session>, xs: seq<string>, ys: seq<string>)
    ensures HasAnyPermission(session, xs + ys) == (HasAnyPermission(session, xs) || HasAnyPermission(session, ys))
  {
    if xs == [] {
      assert xs + ys == ys;
    } else {
      assert (xs + ys)[1..] == xs[1..] + ys;
      HasAnyPermissionAppend(session, xs[1..], ys);
    }
  }
}
