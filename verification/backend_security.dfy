/** The backend's security helpers: access-token creation and checking,
    password authentication, the current user behind a bearer token, and the
    role gates. Time is a parameter `now`, in seconds. */
module BackendSecurity {
  import opened Wrappers
  import opened Crypto
  import opened BackendUsers

  const SecretKey := "your-secret-key-here-change-in-production"
  const AccessTokenExpireMinutes := 480

  /** The lifetime used when no (or a zero, hence falsy) `expires_delta` is
      given: 480 minutes. */
  const DefaultLifetime := AccessTokenExpireMinutes * 60

  /** `create_access_token({"sub": sub}, expires_delta)` at time `now`; the
      token decodes to its subject until it expires. */
  function CreateAccessToken(sub: Option<string>, delta: Option<int>, now: int): (t: Token)
    ensures t.Signed? && t.claims.sub == sub
    ensures delta.Some? && delta.value != 0 ==> t.claims.exp == now + delta.value
    ensures delta.None? || delta == Some(0) ==> t.claims.exp == now + 28800
    ensures forall later :: later <= t.claims.exp ==> Decode(t, SecretKey, later) == Some(t.claims)
  {
    var lifetime := if delta.Some? && delta.value != 0 then delta.value else DefaultLifetime;
    Encode(Claims(sub, now + lifetime), SecretKey)
  }

  /** `verify_token`: the claims, or `None` on any decoding error. */
  function VerifyToken(token: Token, now: int): (r: Option<Claims>)
    ensures r.Some? <==> token.Signed? && token.key == SecretKey && now <= token.claims.exp
    ensures r.Some? ==> r.value == token.claims
  {
    Decode(token, SecretKey, now)
  }

  /** `authenticate_user`: the user with that name, provided the password
      matches and the user is active. */
  function AuthenticateUser(s: Store, username: string, password: string): (r: Option<User>)
    ensures r.Some? ==> r.value in s && r.value.username == username
    ensures r.Some? ==> VerifyPassword(password, r.value.hashedPassword) && r.value.isActive
  {
    match ByUsername(s, username)
    case None => None
    case Some(i) =>
      if !VerifyPassword(password, s[i].hashedPassword) then None
      else if !s[i].isActive then None
      else Some(s[i])
  }

  /** In a valid store authentication succeeds exactly for an active user
      of that name whose digest matches the password. */
  lemma AuthenticateUserIff(s: Store, username: string, password: string)
    requires Valid(s)
    ensures AuthenticateUser(s, username, password).Some? <==>
              exists i :: 0 <= i < |s| && s[i].username == username
                && VerifyPassword(password, s[i].hashedPassword) && s[i].isActive
  {
    if exists i :: 0 <= i < |s| && s[i].username == username
         && VerifyPassword(password, s[i].hashedPassword) && s[i].isActive {
      var i :| 0 <= i < |s| && s[i].username == username
                && VerifyPassword(password, s[i].hashedPassword) && s[i].isActive;
      ByUsernameUnique(s, username, i);
    }
  }

  /** `get_current_user`: the active user named by the subject of a valid,
      unexpired token. */
  function GetCurrentUser(s: Store, token: Token, now: int): (r: Option<User>)
    ensures r.Some? ==> r.value in s && r.value.isActive
    ensures r.Some? ==> VerifyToken(token, now).Some? && VerifyToken(token, now).value.sub == Some(r.value.username)
    ensures VerifyToken(token, now).None? ==> r.None?
  {
    match VerifyToken(token, now)
    case None => None
    case Some(claims) =>
      match claims.sub
      case None => None
      case Some(name) =>
        match ByUsername(s, name)
        case None => None
        case Some(i) => if s[i].isActive then Some(s[i]) else None
  }

  /** A token issued for an active user identifies that user until it
      expires, and nothing afterwards. */
  lemma IssuedTokenIdentifies(s: Store, i: nat, delta: Option<int>, issued: int, now: int)
    requires Valid(s) && i < |s| && s[i].isActive
    ensures var t := CreateAccessToken(Some(s[i].username), delta, issued);
            GetCurrentUser(s, t, now) == (if now <= t.claims.exp then Some(s[i]) else None)
  {
    ByUsernameUnique(s, s[i].username, i);
  }

  const Unauthorized := HttpError(401, "Could not validate credentials")
  const Forbidden := HttpError(403, "Insufficient permissions")

  /** `require_auth`: 401 exactly when there is no current user. */
  function RequireAuth(s: Store, token: Token, now: int): (r: Result<User, HttpError>)
    ensures r.Ok? <==> GetCurrentUser(s, token, now).Some?
    ensures r.Ok? ==> r.value == GetCurrentUser(s, token, now).value
    ensures r.Err? ==> r.error.status == 401
  {
    match GetCurrentUser(s, token, now)
    case None => Err(Unauthorized)
    case Some(u) => Ok(u)
  }

  /** `require_role`: the user's role is the required one, or admin. */
  function RequireRole(s: Store, token: Token, now: int, required: string): (r: Result<User, HttpError>)
    ensures r.Ok? <==> RequireAuth(s, token, now).Ok?
                       && (RoleValue(RequireAuth(s, token, now).value.role) == required
                           || RequireAuth(s, token, now).value.role == Admin)
    ensures r.Ok? ==> r == RequireAuth(s, token, now)
    ensures RequireAuth(s, token, now).Ok? && r.Err? ==> r.error.status == 403
  {
    var user :- RequireAuth(s, token, now);
    if RoleValue(user.role) != required && RoleValue(user.role) != "admin" then Err(Forbidden)
    else Ok(user)
  }

  /** `require_roles`: the user's role is one of the allowed, or admin. */
  function RequireRoles(s: Store, token: Token, now: int, allowed: seq<string>): (r: Result<User, HttpError>)
    ensures r.Ok? <==> RequireAuth(s, token, now).Ok?
                       && (RoleValue(RequireAuth(s, token, now).value.role) in allowed
                           || RequireAuth(s, token, now).value.role == Admin)
    ensures r.Ok? ==> r == RequireAuth(s, token, now)
    ensures RequireAuth(s, token, now).Ok? && r.Err? ==> r.error.status == 403
  {
    var user :- RequireAuth(s, token, now);
    if RoleValue(user.role) !in allowed && RoleValue(user.role) != "admin" then Err(Forbidden)
    else Ok(user)
  }

  /** One required role is the one-element allowed list. */
  lemma RequireRoleIsRequireRoles(s: Store, token: Token, now: int, required: string)
    ensures RequireRole(s, token, now, required) == RequireRoles(s, token, now, [required])
  {
  }

  /** An admin passes every role gate. */
  lemma AdminPassesEveryGate(s: Store, token: Token, now: int, allowed: seq<string>)
    requires RequireAuth(s, token, now).Ok? && RequireAuth(s, token, now).value.role == Admin
    ensures RequireRoles(s, token, now, allowed).Ok?
  {
  }
}
