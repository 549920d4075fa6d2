/** The authentication routes of the template backend: the current-user
    dependency and the role gates built on it, login, registration,
    first-time password setup and the admin-only user listing. The
    template's settings (token secret and lifetime) are a parameter. */
module TemplateAuthRoutes {
  import opened Wrappers
  import opened Crypto
  import opened TemplateUsers
  import Rows

  /** The part of the project's settings the routes read. */
  datatype Settings = Settings(secretKey: string, accessTokenExpireMinutes: int)

  const CouldNotValidate := HttpError(401, "Could not validate credentials")
  const BadLogin := HttpError(401, "Incorrect username or password")
  const NotEnoughPermissions := HttpError(403, "Not enough permissions")
  const UserNotFound := HttpError(404, "User not found")
  const IntegrityError := HttpError(500, "Internal Server Error")

  /** The access token login issues: the username as subject, expiring
      after the configured number of minutes. */
  function IssueToken(settings: Settings, username: string, now: int): (t: Token)
    ensures t.Signed? && t.claims.sub == Some(username)
    ensures forall later :: later <= now + settings.accessTokenExpireMinutes * 60 ==>
              Decode(t, settings.secretKey, later) == Some(t.claims)
  {
    Encode(Claims(Some(username), now + settings.accessTokenExpireMinutes * 60), settings.secretKey)
  }

  /** `get_current_user`, and `require_auth`, which repeats it: 401 for a
      token that does not decode, one without a subject, or one naming no
      user. Whether the user is active is not checked. */
  function CurrentUser(s: Store, settings: Settings, token: Token, now: int): (r: Result<User, HttpError>)
    ensures r.Ok? <==>
              && Decode(token, settings.secretKey, now).Some?
              && Decode(token, settings.secretKey, now).value.sub.Some?
              && ByUsername(s, Decode(token, settings.secretKey, now).value.sub.value).Some?
    ensures r.Ok? ==> r.value in s && Some(r.value.username) == Decode(token, settings.secretKey, now).value.sub
    ensures r.Err? ==> r.error == CouldNotValidate
  {
    match Decode(token, settings.secretKey, now)
    case None => Err(CouldNotValidate)
    case Some(claims) =>
      match claims.sub
      case None => Err(CouldNotValidate)
      case Some(name) =>
        match ByUsername(s, name)
        case None => Err(CouldNotValidate)
        case Some(i) => Ok(s[i])
  }

  /** An inactive user's token still identifies them. */
  lemma InactiveUserAuthenticates(s: Store, settings: Settings, i: nat, now: int, later: int)
    requires Valid(s) && i < |s| && !s[i].isActive
    requires later <= now + settings.accessTokenExpireMinutes * 60
    ensures CurrentUser(s, settings, IssueToken(settings, s[i].username, now), later) == Ok(s[i])
  {
    ByUsernameUnique(s, s[i].username, i);
  }

  /** `get_admin_user`: the current user, if their role is "admin". */
  function AdminUser(s: Store, settings: Settings, token: Token, now: int): (r: Result<User, HttpError>)
    ensures r.Ok? <==> CurrentUser(s, settings, token, now).Ok? && CurrentUser(s, settings, token, now).value.role == "admin"
    ensures r.Ok? ==> r == CurrentUser(s, settings, token, now)
    ensures CurrentUser(s, settings, token, now).Ok? && r.Err? ==> r.error == NotEnoughPermissions
  {
    var user :- CurrentUser(s, settings, token, now);
    if user.role != "admin" then Err(NotEnoughPermissions) else Ok(user)
  }

  /** `get_admin_or_developer_user`: the current user, if their role is
      "admin" or "developer". */
  function AdminOrDeveloperUser(s: Store, settings: Settings, token: Token, now: int): (r: Result<User, HttpError>)
    ensures r.Ok? <==> CurrentUser(s, settings, token, now).Ok?
                       && CurrentUser(s, settings, token, now).value.role in {"admin", "developer"}
    ensures r.Ok? ==> r == CurrentUser(s, settings, token, now)
    ensures CurrentUser(s, settings, token, now).Ok? && r.Err? ==> r.error == NotEnoughPermissions
  {
    var user :- CurrentUser(s, settings, token, now);
    if user.role !in ["admin", "developer"] then Err(NotEnoughPermissions) else Ok(user)
  }

  /** `require_roles`: the current user, if their role is listed or is
      "admin". */
  function RequireRoles(s: Store, settings: Settings, token: Token, now: int, roles: seq<string>): (r: Result<User, HttpError>)
    ensures r.Ok? <==> CurrentUser(s, settings, token, now).Ok?
                       && (CurrentUser(s, settings, token, now).value.role in roles
                           || CurrentUser(s, settings, token, now).value.role == "admin")
    ensures r.Ok? ==> r == CurrentUser(s, settings, token, now)
    ensures CurrentUser(s, settings, token, now).Ok? && r.Err? ==> r.error == NotEnoughPermissions
  {
    var user :- CurrentUser(s, settings, token, now);
    if user.role !in roles && user.role != "admin" then Err(NotEnoughPermissions) else Ok(user)
  }

  /** The two fixed gates are `require_roles` with no extra role and with
      "developer". */
  lemma GatesAreRequireRoles(s: Store, settings: Settings, token: Token, now: int)
    ensures AdminUser(s, settings, token, now) == RequireRoles(s, settings, token, now, [])
    ensures AdminOrDeveloperUser(s, settings, token, now) == RequireRoles(s, settings, token, now, ["developer"])
  {
  }

  /** `Token`: the access token, its type and the user. */
  datatype TokenResponse = TokenResponse(accessToken: Token, tokenType: string, user: UserResponse)

  /** `POST /login`: an unknown or inactive user is refused; a user still
      waiting to set a password gets a token without a password check;
      anyone else needs the right password. */
  function Login(s: Store, settings: Settings, username: string, password: string, now: int): (r: Result<TokenResponse, HttpError>)
    ensures r.Err? ==> r.error == BadLogin
    ensures r.Ok? ==> ByUsername(s, username).Some?
    ensures r.Ok? ==>
              var u := s[ByUsername(s, username).value];
              && u.isActive
              && (u.needsPasswordSetup || Verifies(password, u.hashedPassword))
              && r.value == TokenResponse(IssueToken(settings, username, now), "bearer", Respond(u))
  {
    match ByUsername(s, username)
    case None => Err(BadLogin)
    case Some(i) =>
      var u := s[i];
      if !u.isActive then Err(BadLogin)
      else if !u.needsPasswordSetup && !Verifies(password, u.hashedPassword) then Err(BadLogin)
      else Ok(TokenResponse(IssueToken(settings, u.username, now), "bearer", Respond(u)))
  }

  /** Login succeeds exactly for an active user of that name who still has
      to set a password or gives the right one. */
  lemma LoginIff(s: Store, settings: Settings, username: string, password: string, now: int)
    requires Valid(s)
    ensures Login(s, settings, username, password, now).Ok? <==>
              exists i :: 0 <= i < |s| && s[i].username == username && s[i].isActive
                && (s[i].needsPasswordSetup || Verifies(password, s[i].hashedPassword))
  {
    if exists i :: 0 <= i < |s| && s[i].username == username && s[i].isActive
         && (s[i].needsPasswordSetup || Verifies(password, s[i].hashedPassword)) {
      var i :| 0 <= i < |s| && s[i].username == username && s[i].isActive
                && (s[i].needsPasswordSetup || Verifies(password, s[i].hashedPassword));
      ByUsernameUnique(s, username, i);
    }
  }

  /** The token a login hands out identifies its user until it expires. */
  lemma LoginTokenAuthenticates(s: Store, settings: Settings, username: string, password: string, now: int, later: int)
    requires Valid(s)
    requires Login(s, settings, username, password, now).Ok?
    requires later <= now + settings.accessTokenExpireMinutes * 60
    ensures CurrentUser(s, settings, Login(s, settings, username, password, now).value.accessToken, later)
            == Ok(s[ByUsername(s, username).value])
  {
  }

  lemma AppendKeepsValid(s: Store, u: User)
    requires Valid(s)
    requires forall j :: 0 <= j < |s| ==> s[j].id != u.id && s[j].username != u.username
    requires u.email.Some? ==> forall j :: 0 <= j < |s| ==> s[j].email != u.email
    ensures Valid(s + [u])
  {
  }

  /** `POST /register`, for admins and developers: a taken username, or a
      taken non-empty e-mail address, is refused with 400. An empty address
      skips that check, so a second empty address fails on the unique
      column instead. A new user has no password and must set one. */
  function Register(s: Store, settings: Settings, token: Token, now: int, input: UserCreate): (r: Result<(Store, UserResponse), HttpError>)
    requires Valid(s)
    ensures r.Ok? <==>
              && AdminOrDeveloperUser(s, settings, token, now).Ok?
              && (forall j :: 0 <= j < |s| ==> s[j].username != input.username)
              && (input.email.Some? ==> forall j :: 0 <= j < |s| ==> s[j].email != input.email)
    ensures AdminOrDeveloperUser(s, settings, token, now).Ok? && r.Err? ==>
              r.error.status == (if input.email == Some("") && ByUsername(s, input.username).None? then 500 else 400)
    ensures r.Ok? ==>
              var t := r.value.0;
              && Valid(t)
              && |t| == |s| + 1 && t[..|s|] == s
              && t[|s|] == User(t[|s|].id, input.username, input.email, input.fullName,
                                None, input.role, input.isActive, true)
              && r.value.1 == Respond(t[|s|])
  {
    var _ :- AdminOrDeveloperUser(s, settings, token, now);
    if ByUsername(s, input.username).Some? then Err(HttpError(400, "Username already registered"))
    else if input.email.Some? && input.email.value != "" && ByEmail(s, input.email.value).Some? then
      Err(HttpError(400, "Email already registered"))
    else if input.email.Some? && ByEmail(s, input.email.value).Some? then Err(IntegrityError)
    else
      var u := User(Rows.NextId(s, (row: User) => row.id), input.username, input.email, input.fullName, None,
                    input.role, input.isActive, true);
      AppendKeepsValid(s, u);
      assert (s + [u])[..|s|] == s;
      Ok((s + [u], Respond(u)))
  }

  /** Registering with only the required fields adds an active user of role
      "user", without an e-mail address or a password. */
  lemma RegisterDefaults(s: Store, settings: Settings, token: Token, now: int, username: string, fullName: string)
    requires Valid(s)
    requires Register(s, settings, token, now, UserCreateDefaults(username, fullName)).Ok?
    ensures var t := Register(s, settings, token, now, UserCreateDefaults(username, fullName)).value.0;
            && t[|s|].role == "user" && t[|s|].isActive && t[|s|].email == None
            && t[|s|].hashedPassword == None && t[|s|].needsPasswordSetup
  {
  }

  /** `POST /setup-password`, for the current user: refused with 400 once
      the password is set; otherwise the password is stored hashed and the
      flag is cleared. */
  function SetupPassword(s: Store, settings: Settings, token: Token, now: int, password: string): (r: Result<Store, HttpError>)
    requires Valid(s)
    ensures r.Ok? <==> CurrentUser(s, settings, token, now).Ok? && CurrentUser(s, settings, token, now).value.needsPasswordSetup
    ensures CurrentUser(s, settings, token, now).Ok? && r.Err? ==> r.error == HttpError(400, "Password already set")
    ensures r.Ok? ==>
              var u := CurrentUser(s, settings, token, now).value;
              var i := ByUsername(s, u.username).value;
              && s[i] == u
              && r.value == s[i := u.(hashedPassword := Some(HashPassword(password)), needsPasswordSetup := false)]
              && Valid(r.value)
              && Verifies(password, r.value[i].hashedPassword)
  {
    var u :- CurrentUser(s, settings, token, now);
    if !u.needsPasswordSetup then Err(HttpError(400, "Password already set"))
    else
      var i := ByUsername(s, u.username).value;
      Ok(s[i := u.(hashedPassword := Some(HashPassword(password)), needsPasswordSetup := false)])
  }

  /** After setting a password an active user logs in with it and with no
      other. */
  lemma SetupThenLogin(s: Store, settings: Settings, token: Token, now: int, newPassword: string, password: string, later: int)
    requires Valid(s)
    requires SetupPassword(s, settings, token, now, newPassword).Ok?
    requires CurrentUser(s, settings, token, now).value.isActive
    ensures var t := SetupPassword(s, settings, token, now, newPassword).value;
            var u := CurrentUser(s, settings, token, now).value;
            Login(t, settings, u.username, password, later).Ok? <==> password == newPassword
  {
    var t := SetupPassword(s, settings, token, now, newPassword).value;
    var u := CurrentUser(s, settings, token, now).value;
    var i := ByUsername(s, u.username).value;
    ByUsernameUnique(t, u.username, i);
  }

  /** A second setup with the same token is refused. */
  lemma SetupOnlyOnce(s: Store, settings: Settings, token: Token, now: int, first: string, second: string)
    requires Valid(s)
    requires SetupPassword(s, settings, token, now, first).Ok?
    ensures SetupPassword(SetupPassword(s, settings, token, now, first).value, settings, token, now, second).Err?
  {
    var t := SetupPassword(s, settings, token, now, first).value;
    var u := CurrentUser(s, settings, token, now).value;
    var i := ByUsername(s, u.username).value;
    ByUsernameUnique(t, u.username, i);
  }

  /** `GET /users`, for admins: every user, in table order. */
  function GetUsers(s: Store, settings: Settings, token: Token, now: int): (r: Result<seq<UserResponse>, HttpError>)
    ensures r.Ok? <==> AdminUser(s, settings, token, now).Ok?
    ensures r.Err? ==> r.error == AdminUser(s, settings, token, now).error
    ensures r.Ok? ==> |r.value| == |s| && forall k :: 0 <= k < |s| ==> r.value[k] == Respond(s[k])
  {
    var _ :- AdminUser(s, settings, token, now);
    Ok(seq(|s|, k requires 0 <= k < |s| => Respond(s[k])))
  }

  /** `GET /users/{id}`, for admins: the user with that id, or 404. */
  function GetUser(s: Store, settings: Settings, token: Token, now: int, id: int): (r: Result<UserResponse, HttpError>)
    ensures AdminUser(s, settings, token, now).Ok? ==>
              (r.Ok? <==> exists k :: 0 <= k < |s| && s[k].id == id)
    ensures AdminUser(s, settings, token, now).Ok? && r.Err? ==> r.error == UserNotFound
    ensures AdminUser(s, settings, token, now).Err? ==> r.Err? && r.error.status in {401, 403}
    ensures r.Ok? ==> r.value.id == id && exists k :: 0 <= k < |s| && r.value == Respond(s[k])
  {
    var _ :- AdminUser(s, settings, token, now);
    match ById(s, id)
    case None => Err(UserNotFound)
    case Some(k) => Ok(Respond(s[k]))
  }
}
