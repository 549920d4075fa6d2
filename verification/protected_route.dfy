/** The dashboard's route guard: a spinner while the session loads, the
    login form without a user, the password setup form for a user who has
    none yet, and otherwise the page, unless a required role is set and the
    user's rank in the hierarchy viewer < developer < admin is lower. A role
    outside the hierarchy has no rank, and `undefined < n` is false in
    JavaScript, so such a user is never turned away. */
module ProtectedRoute {
  import opened Wrappers
  import opened AuthContext
  import BackendUsers

  /** The `requiredRole` a page may ask for. */
  datatype RequiredRole = Viewer | Developer | Admin

  datatype Screen = Spinner | LoginForm | PasswordSetup | AccessDenied | Page

  /** `roleHierarchy[user.role]`: the rank of a known role. */
  function Rank(role: string): (r: Option<int>)
    ensures r.Some? <==> role in {"viewer", "developer", "admin"}
    ensures r == Some(1) <==> role == "viewer"
    ensures r == Some(2) <==> role == "developer"
    ensures r == Some(3) <==> role == "admin"
  {
    if role == "viewer" then Some(1)
    else if role == "developer" then Some(2)
    else if role == "admin" then Some(3)
    else None
  }

  function Name(q: RequiredRole): string {
    match q
    case Viewer => "viewer"
    case Developer => "developer"
    case Admin => "admin"
  }

  /** `roleHierarchy[requiredRole]`. */
  function RequiredRank(q: RequiredRole): (n: int)
    ensures Rank(Name(q)) == Some(n)
  {
    match q
    case Viewer => 1
    case Developer => 2
    case Admin => 3
  }

  /** `userRoleLevel < requiredRoleLevel`, where a missing rank compares
      false. */
  predicate Below(role: string, q: RequiredRole) {
    var rank := Rank(role);
    rank.Some? && rank.value < RequiredRank(q)
  }

  /** What `ProtectedRoute` renders. */
  function Render(loading: bool, user: Option<User>, required: Option<RequiredRole>): (v: Screen)
    ensures loading ==> v == Spinner
    ensures !loading && user.None? ==> v == LoginForm
    ensures !loading && user.Some? && user.value.needsPasswordSetup ==> v == PasswordSetup
    ensures v == AccessDenied <==>
              && !loading && user.Some? && !user.value.needsPasswordSetup
              && required.Some? && Below(user.value.role, required.value)
    ensures v == Page <==>
              && !loading && user.Some? && !user.value.needsPasswordSetup
              && (required.None? || !Below(user.value.role, required.value))
  {
    if loading then Spinner
    else if user.None? then LoginForm
    else if user.value.needsPasswordSetup then PasswordSetup
    else if required.Some? && Below(user.value.role, required.value) then AccessDenied
    else Page
  }

  /** The roles a page requiring `q` admits, as a list for the backend's
      `require_roles`. */
  function AtOrAbove(q: RequiredRole): seq<string> {
    match q
    case Viewer => ["viewer", "developer", "admin"]
    case Developer => ["developer", "admin"]
    case Admin => ["admin"]
  }

  /** For every role the backend knows, the guard admits exactly the users
      the backend's `require_roles` would admit with the roles at or above
      the required one. */
  lemma GuardMatchesBackendRoles(u: User, role: BackendUsers.Role, q: RequiredRole)
    requires u.role == BackendUsers.RoleValue(role) && !u.needsPasswordSetup
    ensures Render(false, Some(u), Some(q)) == Page
            <==> BackendUsers.RoleValue(role) in AtOrAbove(q) || role == BackendUsers.Admin
  {
  }

  /** A page that admits a user also admits them when it requires less. */
  lemma AdmitsWhenRequiringLess(u: User, q: RequiredRole, q': RequiredRole)
    requires RequiredRank(q') <= RequiredRank(q)
    requires Render(false, Some(u), Some(q)) == Page
    ensures Render(false, Some(u), Some(q')) == Page
  {
  }

  /** A role outside the hierarchy (the template backend's "user", say)
      passes even an admin-only page. */
  lemma UnknownRoleAdmitted(u: User, q: RequiredRole)
    requires Rank(u.role).None? && !u.needsPasswordSetup
    ensures Render(false, Some(u), Some(q)) == Page
  {
  }
}
