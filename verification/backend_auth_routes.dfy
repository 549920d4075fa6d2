/** The backend's authentication routes: login, registration, partial update,
    deletion and first-time password setup, as transitions of the user
    table. Each route takes the bearer token and the time; a route that
    fails leaves the table as it was. */
module BackendAuthRoutes {
  import opened Wrappers
  import opened Crypto
  import opened BackendUsers
  import opened BackendSecurity
  import opened Rows

  const BadLogin := HttpError(401, "Incorrect username or password")
  const UserNotFound := HttpError(404, "User not found")

  /** `POST /login`: an unknown or inactive user is refused; a user waiting
      to set a password gets a token whatever the password; anyone else
      needs the right password. The token names the user and lasts 480
      minutes. */
  function Login(s: Store, username: string, password: string, now: int): (r: Result<TokenResponse, HttpError>)
    ensures r.Err? ==> r.error == BadLogin
    ensures r.Ok? ==> ByUsername(s, username).Some?
    ensures r.Ok? ==>
              var u := s[ByUsername(s, username).value];
              && u.isActive
              && (u.needsPasswordSetup || VerifyPassword(password, u.hashedPassword))
              && r.value.user == Respond(u)
              && r.value.tokenType == "bearer"
              && r.value.accessToken == CreateAccessToken(Some(u.username), Some(28800), now)
  {
    match ByUsername(s, username)
    case None => Err(BadLogin)
    case Some(i) =>
      var u := s[i];
      if !u.isActive then Err(BadLogin)
      else if !u.needsPasswordSetup && !VerifyPassword(password, u.hashedPassword) then Err(BadLogin)
      else
        var token := CreateAccessToken(Some(u.username), Some(AccessTokenExpireMinutes * 60), now);
        Ok(TokenResponse(token, Bearer, Respond(u)))
  }

  /** Login succeeds exactly for an active user of that name who either
      still has to set a password or gives the right one. */
  lemma LoginIff(s: Store, username: string, password: string, now: int)
    requires Valid(s)
    ensures Login(s, username, password, now).Ok? <==>
              exists i :: 0 <= i < |s| && s[i].username == username && s[i].isActive
                && (s[i].needsPasswordSetup || VerifyPassword(password, s[i].hashedPassword))
  {
    if exists i :: 0 <= i < |s| && s[i].username == username && s[i].isActive
         && (s[i].needsPasswordSetup || VerifyPassword(password, s[i].hashedPassword)) {
      var i :| 0 <= i < |s| && s[i].username == username && s[i].isActive
                && (s[i].needsPasswordSetup || VerifyPassword(password, s[i].hashedPassword));
      ByUsernameUnique(s, username, i);
    }
  }

  /** The token a login hands out makes its user the current user for the
      next 480 minutes. */
  lemma LoginTokenAuthenticates(s: Store, username: string, password: string, now: int, later: int)
    requires Valid(s)
    requires Login(s, username, password, now).Ok?
    requires now <= later <= now + 28800
    ensures var u := s[ByUsername(s, username).value];
            GetCurrentUser(s, Login(s, username, password, now).value.accessToken, later) == Some(u)
  {
    var i := ByUsername(s, username).value;
    IssuedTokenIdentifies(s, i, Some(28800), now, later);
  }

  /** The rows other than row `i` have neither `u`'s username nor, when it
      has one, its e-mail address. */
  ghost predicate FreeFor(s: Store, i: int, u: User) {
    forall j :: 0 <= j < |s| && j != i ==>
      s[j].username != u.username && (u.email.Some? ==> s[j].email != u.email)
  }

  /** Putting a row that keeps the table's constraints into the table. */
  lemma PlaceKeepsValid(s: Store, i: nat, u: User)
    requires Valid(s) && i < |s|
    requires FreeFor(s, i, u)
    requires u.id == s[i].id
    requires !u.needsPasswordSetup ==> u.hashedPassword != Blank
    ensures Valid(s[i := u])
  {
  }

  lemma AppendKeepsValid(s: Store, u: User)
    requires Valid(s)
    requires FreeFor(s, |s|, u)
    requires forall j :: 0 <= j < |s| ==> s[j].id != u.id
    requires !u.needsPasswordSetup ==> u.hashedPassword != Blank
    ensures Valid(s + [u])
  {
  }

  /** A user who has finished password setup never goes back: every row
      still present under the same id keeps the flag cleared. */
  ghost predicate SetupStaysDone(before: Store, after: Store) {
    forall i, j ::
      0 <= i < |before| && 0 <= j < |after| && before[i].id == after[j].id && !before[i].needsPasswordSetup
      ==> !after[j].needsPasswordSetup
  }

  /** `POST /register`, for admins and developers: a taken username, or a
      taken e-mail address when one is given, is refused with 400;
      otherwise the user is added with an empty password, waiting for
      setup, and every other field from the request. */
  function Register(s: Store, token: Token, now: int, input: UserCreate): (r: Result<(Store, UserResponse), HttpError>)
    requires input.email.Some? ==> input.email.value != ""
    requires Valid(s)
    ensures r.Ok? <==>
              && RequireRoles(s, token, now, ["admin", "developer"]).Ok?
              && (forall j :: 0 <= j < |s| ==> s[j].username != input.username)
              && (input.email.Some? ==> forall j :: 0 <= j < |s| ==> s[j].email != input.email)
    ensures RequireRoles(s, token, now, ["admin", "developer"]).Ok? && r.Err? ==> r.error.status == 400
    ensures r.Ok? ==>
              var t := r.value.0;
              && Valid(t)
              && |t| == |s| + 1 && t[..|s|] == s
              && t[|s|] == User(t[|s|].id, input.username, input.email, input.fullName,
                                Blank, input.role, input.isActive, true)
              && r.value.1 == Respond(t[|s|])
              && SetupStaysDone(s, t)
  {
    var _ :- RequireRoles(s, token, now, ["admin", "developer"]);
    if ByUsername(s, input.username).Some? then Err(HttpError(400, "Username already registered"))
    else if input.email.Some? && ByEmail(s, input.email.value).Some? then Err(HttpError(400, "Email already registered"))
    else
      var u := User(NextId(s, (row: User) => row.id), input.username, input.email, input.fullName, Blank,
                    input.role, input.isActive, true);
      AppendKeepsValid(s, u);
      assert (s + [u])[..|s|] == s;
      Ok((s + [u], Respond(u)))
  }

  /** Registering with only the required fields adds an active viewer
      without an e-mail address. */
  lemma RegisterDefaults(s: Store, token: Token, now: int, username: string, fullName: string)
    requires Valid(s)
    requires Register(s, token, now, UserCreateDefaults(username, fullName)).Ok?
    ensures var u := Register(s, token, now, UserCreateDefaults(username, fullName)).value.1;
            u.role == Viewer && u.isActive && u.email == None && u.needsPasswordSetup
  {
  }

  /** The row after a partial update: each field that was sent replaces the
      stored one (a password is stored hashed), the others stay. The setup
      flag is never changed, even when sent. */
  function Apply(u: User, upd: UserUpdate): (v: User)
    ensures v.id == u.id && v.needsPasswordSetup == u.needsPasswordSetup
    ensures v.username == upd.username.GetOr(u.username)
    ensures v.email == (if upd.email.Some? then upd.email else u.email)
    ensures v.fullName == upd.fullName.GetOr(u.fullName)
    ensures v.role == upd.role.GetOr(u.role)
    ensures v.isActive == upd.isActive.GetOr(u.isActive)
    ensures upd.password.Some? ==> v.hashedPassword == HashPassword(upd.password.value)
    ensures upd.password.None? ==> v.hashedPassword == u.hashedPassword
  {
    User(
      u.id,
      upd.username.GetOr(u.username),
      if upd.email.Some? then upd.email else u.email,
      upd.fullName.GetOr(u.fullName),
      if upd.password.Some? then HashPassword(upd.password.value) else u.hashedPassword,
      upd.role.GetOr(u.role),
      upd.isActive.GetOr(u.isActive),
      u.needsPasswordSetup)
  }

  lemma ApplyNothing(u: User)
    ensures Apply(u, EmptyUpdate) == u
  {
  }

  /** Another row already has the updated row's username or e-mail address:
      the unique constraints make the commit fail. */
  function Collides(s: Store, v: User): (c: bool)
    ensures !c ==> forall j :: 0 <= j < |s| && s[j].id != v.id ==>
                     s[j].username != v.username && (v.email.Some? ==> s[j].email != v.email)
  {
    First(s, (w: User) => w.id != v.id && (w.username == v.username || (v.email.Some? && w.email == v.email))).Some?
  }

  const IntegrityError := HttpError(500, "Internal Server Error")

  /** `PUT /users/{id}`, for admins: an unknown id gives 404; otherwise the
      row is updated in place and nothing else changes. An update that
      would repeat another user's username or e-mail address fails in the
      database. */
  function UpdateUser(s: Store, token: Token, now: int, id: int, upd: UserUpdate): (r: Result<(Store, UserResponse), HttpError>)
    requires Valid(s)
    ensures RequireRole(s, token, now, "admin").Ok? && ById(s, id).None? ==> r == Err(UserNotFound)
    ensures r.Ok? ==> RequireRole(s, token, now, "admin").Ok? && ById(s, id).Some?
    ensures r.Ok? ==>
              var i := ById(s, id).value;
              && r.value.0 == s[i := Apply(s[i], upd)]
              && r.value.1 == Respond(Apply(s[i], upd))
              && Valid(r.value.0)
              && SetupStaysDone(s, r.value.0)
  {
    var _ :- RequireRole(s, token, now, "admin");
    match ById(s, id)
    case None => Err(UserNotFound)
    case Some(i) =>
      var v := Apply(s[i], upd);
      if Collides(s, v) then Err(IntegrityError)
      else
        NoCollisionFree(s, i, v);
        PlaceKeepsValid(s, i, v);
        PlaceSetupDone(s, i, v);
        Ok((s[i := v], Respond(v)))
  }

  /** A row that collides with no row of another id is free to take the
      place of the row with its id. */
  lemma NoCollisionFree(s: Store, i: nat, v: User)
    requires Valid(s) && i < |s| && v.id == s[i].id && !Collides(s, v)
    ensures FreeFor(s, i, v)
  {
    forall j | 0 <= j < |s| && j != i ensures s[j].id != v.id {
    }
  }

  /** Replacing a row by one with the same id that has not gone back to
      needing a password keeps finished setups finished. */
  lemma PlaceSetupDone(s: Store, i: nat, v: User)
    requires Valid(s) && i < |s| && v.id == s[i].id
    requires !s[i].needsPasswordSetup ==> !v.needsPasswordSetup
    ensures SetupStaysDone(s, s[i := v])
  {
    var t := s[i := v];
    forall a, b | 0 <= a < |s| && 0 <= b < |t| && s[a].id == t[b].id && !s[a].needsPasswordSetup
      ensures !t[b].needsPasswordSetup
    {
      if b == i { assert a == i; } else { assert t[b] == s[b] && a == b; }
    }
  }

  /** Taking row `i` out of a valid table keeps it valid, and exactly the
      rows with other ids remain. */
  lemma RemoveKeepsValid(s: Store, i: nat)
    requires Valid(s) && i < |s|
    ensures var t := s[..i] + s[i + 1..];
            && |t| == |s| - 1
            && Valid(t)
            && (forall u :: u in t <==> u in s && u.id != s[i].id)
            && SetupStaysDone(s, t)
  {
    RemoveRows(s, i);
    RemoveMembers(s, i);
    RemoveSetupDone(s, i);
  }

  /** The rows of `s` without row `i`, as positions of `s`. */
  function Skip(i: nat, k: nat): nat {
    if k < i then k else k + 1
  }

  /** Without row `i`, every pair of rows is a pair of `s` in the same
      order, so the table stays valid. */
  lemma RemoveRows(s: Store, i: nat)
    requires Valid(s) && i < |s|
    ensures var t := s[..i] + s[i + 1..];
            && |t| == |s| - 1
            && (forall k :: 0 <= k < |t| ==> t[k] == s[Skip(i, k)])
            && Valid(t)
  {
    var t := s[..i] + s[i + 1..];
    forall k | 0 <= k < |t| ensures t[k] == s[Skip(i, k)] {
      if k < i { assert t[k] == s[..i][k]; } else { assert t[k] == s[i + 1..][k - i]; }
    }
    forall k, l | 0 <= k < l < |t|
      ensures t[k].id != t[l].id && t[k].username != t[l].username
      ensures t[k].email.Some? ==> t[k].email != t[l].email
    {
      var a, b := Skip(i, k), Skip(i, l);
      assert a < b < |s| && t[k] == s[a] && t[l] == s[b];
    }
    forall k | 0 <= k < |t| && !t[k].needsPasswordSetup ensures t[k].hashedPassword != Blank {
      assert t[k] == s[Skip(i, k)];
    }
  }

  /** Without row `i`, exactly the rows with another id remain. */
  lemma RemoveMembers(s: Store, i: nat)
    requires Valid(s) && i < |s|
    ensures var t := s[..i] + s[i + 1..];
            forall u :: u in t <==> u in s && u.id != s[i].id
  {
    var t := s[..i] + s[i + 1..];
    RemoveRows(s, i);
    forall u | u in t ensures u in s && u.id != s[i].id {
      var k :| 0 <= k < |t| && t[k] == u;
      var j := Skip(i, k);
      assert u == s[j];
      if j < i { assert s[j].id != s[i].id; } else { assert s[i].id != s[j].id; }
    }
    forall u | u in s && u.id != s[i].id ensures u in t {
      var k :| 0 <= k < |s| && s[k] == u;
      assert k != i;
      if k < i { assert t[k] == u; } else { assert t[k - 1] == u; }
    }
  }

  /** Without row `i`, every remaining row is the row of `s` with its id. */
  lemma RemoveSetupDone(s: Store, i: nat)
    requires Valid(s) && i < |s|
    ensures SetupStaysDone(s, s[..i] + s[i + 1..])
  {
    var t := s[..i] + s[i + 1..];
    RemoveRows(s, i);
    forall a, b | 0 <= a < |s| && 0 <= b < |t| && s[a].id == t[b].id
      ensures s[a] == t[b]
    {
      assert t[b] == s[Skip(i, b)];
    }
  }

  /** `DELETE /users/{id}`, for admins: an unknown id gives 404; otherwise
      exactly that row is removed. */
  function DeleteUser(s: Store, token: Token, now: int, id: int): (r: Result<Store, HttpError>)
    requires Valid(s)
    ensures RequireRole(s, token, now, "admin").Ok? && ById(s, id).None? ==> r == Err(UserNotFound)
    ensures r.Ok? ==> RequireRole(s, token, now, "admin").Ok? && ById(s, id).Some?
    ensures r.Ok? ==>
              && |r.value| == |s| - 1
              && Valid(r.value)
              && (forall u :: u in r.value <==> u in s && u.id != id)
              && SetupStaysDone(s, r.value)
  {
    var _ :- RequireRole(s, token, now, "admin");
    match ById(s, id)
    case None => Err(UserNotFound)
    case Some(i) =>
      RemoveKeepsValid(s, i);
      Ok(s[..i] + s[i + 1..])
  }

  /** `POST /setup-password`, for the current user: refused with 400 once
      the password has been set; otherwise the password is stored hashed and
      the flag is cleared, for good. */
  function SetupPassword(s: Store, token: Token, now: int, newPassword: string): (r: Result<(Store, UserResponse), HttpError>)
    requires Valid(s)
    ensures r.Ok? <==> RequireAuth(s, token, now).Ok? && RequireAuth(s, token, now).value.needsPasswordSetup
    ensures RequireAuth(s, token, now).Ok? && r.Err? ==> r.error == HttpError(400, "Password already set up")
    ensures r.Ok? ==>
              var u := RequireAuth(s, token, now).value;
              var i := ByUsername(s, u.username).value;
              && s[i] == u
              && r.value.0 == s[i := u.(hashedPassword := HashPassword(newPassword), needsPasswordSetup := false)]
              && Valid(r.value.0)
              && SetupStaysDone(s, r.value.0)
              && VerifyPassword(newPassword, r.value.0[i].hashedPassword)
  {
    var u :- RequireAuth(s, token, now);
    if !u.needsPasswordSetup then Err(HttpError(400, "Password already set up"))
    else
      var i := ByUsername(s, u.username).value;
      var v := u.(hashedPassword := HashPassword(newPassword), needsPasswordSetup := false);
      PlaceKeepsValid(s, i, v);
      Ok((s[i := v], Respond(v)))
  }

  /** After setting a password the user logs in with it, and only with it. */
  lemma SetupThenLogin(s: Store, token: Token, now: int, newPassword: string, password: string, later: int)
    requires Valid(s)
    requires SetupPassword(s, token, now, newPassword).Ok?
    ensures var t := SetupPassword(s, token, now, newPassword).value.0;
            var u := RequireAuth(s, token, now).value;
            Login(t, u.username, password, later).Ok? <==> password == newPassword
  {
    var t := SetupPassword(s, token, now, newPassword).value.0;
    var u := RequireAuth(s, token, now).value;
    var i := ByUsername(s, u.username).value;
    ByUsernameUnique(t, u.username, i);
  }

  /** A second setup with the same token is refused. */
  lemma SetupOnlyOnce(s: Store, token: Token, now: int, first: string, second: string)
    requires Valid(s)
    requires SetupPassword(s, token, now, first).Ok?
    ensures var t := SetupPassword(s, token, now, first).value.0;
            SetupPassword(t, token, now, second).Err?
  {
    var t := SetupPassword(s, token, now, first).value.0;
    var u := RequireAuth(s, token, now).value;
    var i := ByUsername(s, u.username).value;
    ByUsernameUnique(t, u.username, i);
  }
}
