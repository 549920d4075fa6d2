/** The dashboard's authentication context: the signed-in user, the bearer
    token, the copy of the token kept in the browser's local storage under
    "auth_token", and the loading flag. Each handler is a transition on that
    state; the answer of the backend is a parameter (a reply, a non-OK
    status, or a request that threw). */
module AuthContext {
  import opened Wrappers
  import opened Text

  /** The user record `/api/auth/me` and `/api/auth/login` return. */
  datatype User = User(
    id: int,
    username: string,
    email: Option<string>,
    fullName: string,
    role: string,
    isActive: bool,
    needsPasswordSetup: bool)

  datatype State = State(
    user: Option<User>,
    token: Option<string>,
    stored: Option<string>,
    loading: bool)

  /** The outcome of a request: an OK reply carrying `body`, a reply with
      another status, or a request that threw. */
  datatype Reply<T> = Answered(body: T) | NotOk | Threw

  /** What the provider starts with, given what local storage holds. */
  function Initial(stored: Option<string>): State {
    State(None, None, stored, true)
  }

  /** A token held by the provider is the one in local storage. */
  predicate Consistent(st: State) {
    st.token.Some? ==> st.stored == st.token
  }

  /** `fetchUserInfo(authToken)`: an OK reply signs the user in; anything
      else drops the token, both in memory and in storage. Loading ends
      either way. */
  function FetchUserInfo(st: State, me: Reply<User>): (r: State)
    ensures !r.loading
    ensures me.Answered? ==> r == st.(user := Some(me.body), loading := false)
    ensures !me.Answered? ==> r == st.(token := None, stored := None, loading := false)
  {
    match me
    case Answered(u) => st.(user := Some(u), loading := false)
    case _ => st.(token := None, stored := None, loading := false)
  }

  /** The mount effect: a saved token (a non-empty string) becomes the
      token and is checked against `/me`; without one, loading just ends. */
  function Mount(stored: Option<string>, me: Reply<User>): (r: State)
    ensures !r.loading && Consistent(r)
    ensures stored.Some? && Truthy(stored.value) && me.Answered? ==>
              r.user == Some(me.body) && r.token == stored && r.stored == stored
    ensures stored.Some? && Truthy(stored.value) && !me.Answered? ==>
              r.user.None? && r.token.None? && r.stored.None?
    ensures !(stored.Some? && Truthy(stored.value)) ==> r == Initial(stored).(loading := false)
  {
    var st := Initial(stored);
    if stored.Some? && Truthy(stored.value) then FetchUserInfo(st.(token := stored), me)
    else st.(loading := false)
  }

  /** The body of a successful login. */
  datatype LoginData = LoginData(accessToken: string, user: User)

  /** `login`: an OK reply sets the token and the user, stores the token
      and answers true; a non-OK reply or a throw answers false and changes
      nothing. */
  function Login(st: State, reply: Reply<LoginData>): (r: (State, bool))
    ensures r.1 <==> reply.Answered?
    ensures reply.Answered? ==>
              r.0 == st.(token := Some(reply.body.accessToken), user := Some(reply.body.user),
                         stored := Some(reply.body.accessToken))
    ensures !reply.Answered? ==> r.0 == st
  {
    match reply
    case Answered(d) => (st.(token := Some(d.accessToken), user := Some(d.user), stored := Some(d.accessToken)), true)
    case _ => (st, false)
  }

  /** `logout`: no user, no token, nothing stored. */
  function Logout(st: State): (r: State)
    ensures r.user.None? && r.token.None? && r.stored.None? && r.loading == st.loading
  {
    st.(user := None, token := None, stored := None)
  }

  /** The form data `registerUser` is given. */
  datatype RegisterUserData = RegisterUserData(
    username: string,
    email: Option<string>,
    fullName: string,
    role: string,
    isActive: Option<bool>,
    needsPasswordSetup: Option<bool>)

  /** The body sent to `/api/auth/register`. */
  datatype RegisterPayload = RegisterPayload(
    username: string,
    email: Option<string>,
    fullName: string,
    role: string,
    isActive: bool,
    needsPasswordSetup: bool)

  /** The body built from the form: an empty or missing email becomes
      null, a missing `is_active` becomes true, and the new user always
      needs to set a password, whatever the form says. */
  function Payload(data: RegisterUserData): (p: RegisterPayload)
    ensures p.username == data.username && p.fullName == data.fullName && p.role == data.role
    ensures p.email.Some? <==> data.email.Some? && data.email.value != ""
    ensures p.email.Some? ==> p.email == data.email
    ensures p.isActive == (data.isActive.None? || data.isActive.value)
    ensures p.needsPasswordSetup
  {
    RegisterPayload(
      data.username,
      if data.email.Some? && Truthy(data.email.value) then data.email else None,
      data.fullName,
      data.role,
      data.isActive.GetOr(true),
      true)
  }

  /** `registerUser`: the request it sends, if any, and its answer. With
      no token it sends nothing and answers false; otherwise it answers
      whether the reply was OK. The state is left as it is. */
  function RegisterUser(st: State, data: RegisterUserData, reply: Reply<()>): (r: (Option<RegisterPayload>, bool))
    ensures r.0.None? <==> st.token.None? || st.token.value == ""
    ensures r.0.Some? ==> r.0.value == Payload(data)
    ensures r.1 <==> r.0.Some? && reply.Answered?
  {
    if st.token.None? || !Truthy(st.token.value) then (None, false)
    else (Some(Payload(data)), reply.Answered?)
  }

  /** `refreshUserData`: fetches the user again when there is a token. */
  function RefreshUserData(st: State, me: Reply<User>): (r: State)
    ensures st.token.Some? && st.token.value != "" ==> r == FetchUserInfo(st, me)
    ensures st.token.None? || st.token.value == "" ==> r == st
  {
    if st.token.Some? && Truthy(st.token.value) then FetchUserInfo(st, me) else st
  }

  /** Every handler keeps the token in memory and in storage together. */
  lemma HandlersKeepConsistent(st: State, me: Reply<User>, reply: Reply<LoginData>)
    requires Consistent(st)
    ensures Consistent(FetchUserInfo(st, me))
    ensures Consistent(Login(st, reply).0)
    ensures Consistent(Logout(st))
    ensures Consistent(RefreshUserData(st, me))
  {
  }

  /** A page reload after a login picks the same token up again. */
  lemma ReloadAfterLogin(st: State, d: LoginData, me: Reply<User>)
    requires d.accessToken != ""
    ensures var stored := Login(st, Answered(d)).0.stored;
            me.Answered? ==> Mount(stored, me).token == Some(d.accessToken)
  {
  }

  /** After a logout a reload finds nothing stored and asks for a login. */
  lemma ReloadAfterLogout(st: State, me: Reply<User>)
    ensures Mount(Logout(st).stored, me) == State(None, None, None, false)
  {
  }

  /** A refresh that fails drops the token but keeps the user: the user
      still appears signed in, yet `registerUser` then sends nothing. */
  lemma FailedRefreshKeepsUser(st: State, me: Reply<User>, data: RegisterUserData, reply: Reply<()>)
    requires st.user.Some? && st.token.Some? && st.token.value != "" && !me.Answered?
    ensures RefreshUserData(st, me).user == st.user
    ensures RegisterUser(RefreshUserData(st, me), data, reply) == (None, false)
  {
  }
}
