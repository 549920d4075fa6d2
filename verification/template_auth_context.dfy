/** The template's authentication context. It keeps no token in memory:
    every request reads "authToken" from local storage. Login and
    registration throw on failure instead of answering false, and a failed
    `/me` removes the stored token but leaves the user in place. */
module TemplateAuthContext {
  import opened Wrappers
  import opened Text

  datatype User = User(
    id: int,
    username: string,
    email: Option<string>,
    fullName: string,
    role: string,
    isActive: bool,
    needsPasswordSetup: bool)

  /** The local-storage key every handler reads and writes; `stored` is
      the value under it. */
  const TokenKey := "authToken"

  datatype State = State(user: Option<User>, stored: Option<string>, loading: bool)

  /** The outcome of a request: an OK reply with its body, a non-OK reply
      with the `detail` of its JSON body when it has one, or a throw. */
  datatype Reply<T> = Answered(body: T) | Rejected(detail: Option<string>) | Threw

  /** What a handler throws: an error with a message, or the request's own
      error passed on. */
  datatype Failure = Message(text: string) | RequestFailed

  /** `fetchUser`, run on mount and by `refreshUserData`: the new state and
      the token sent to `/me`, if a request was made. */
  function FetchUser(st: State, me: Reply<User>): (r: (State, Option<string>))
    ensures !r.0.loading
    ensures r.1.Some? <==> st.stored.Some? && st.stored.value != ""
    ensures r.1.Some? ==> r.1 == st.stored
    ensures r.1.None? ==> r.0 == st.(loading := false)
    ensures r.1.Some? && me.Answered? ==> r.0 == st.(user := Some(me.body), loading := false)
    ensures r.1.Some? && !me.Answered? ==> r.0 == st.(stored := None, loading := false)
  {
    var token := st.stored;
    if token.None? || !Truthy(token.value) then (st.(loading := false), None)
    else
      match me
      case Answered(u) => (st.(user := Some(u), loading := false), token)
      case _ => (st.(stored := None, loading := false), token)
  }

  datatype LoginData = LoginData(accessToken: string, user: User)

  /** `login`: on an OK reply the token is stored and the user set; a
      non-OK reply throws "Login failed", and a failed request passes its
      error on, both without storing anything. */
  function Login(st: State, reply: Reply<LoginData>): (r: Result<State, Failure>)
    ensures r.Ok? <==> reply.Answered?
    ensures r.Ok? ==> r.value == st.(stored := Some(reply.body.accessToken), user := Some(reply.body.user))
    ensures reply.Rejected? ==> r == Err(Message("Login failed"))
    ensures reply.Threw? ==> r == Err(RequestFailed)
  {
    match reply
    case Answered(d) => Ok(st.(stored := Some(d.accessToken), user := Some(d.user)))
    case Rejected(_) => Err(Message("Login failed"))
    case Threw => Err(RequestFailed)
  }

  /** `logout`: the stored token and the user are gone. */
  function Logout(st: State): (r: State)
    ensures r.user.None? && r.stored.None? && r.loading == st.loading
  {
    st.(stored := None, user := None)
  }

  /** The form data the user-management dialog passes in. */
  datatype RegisterData = RegisterData(
    username: string,
    email: string,
    fullName: string,
    role: string,
    isActive: bool)

  /** The body sent: the form's fields, with `email || null` and
      `needs_password_setup` forced to true. */
  datatype RegisterBody = RegisterBody(
    username: string,
    email: Option<string>,
    fullName: string,
    role: string,
    isActive: bool,
    needsPasswordSetup: bool)

  function Body(data: RegisterData): (b: RegisterBody)
    ensures b.username == data.username && b.fullName == data.fullName
    ensures b.role == data.role && b.isActive == data.isActive
    ensures b.email.None? <==> data.email == ""
    ensures b.email.Some? ==> b.email.value == data.email
    ensures b.needsPasswordSetup
  {
    RegisterBody(data.username, if Truthy(data.email) then Some(data.email) else None,
                 data.fullName, data.role, data.isActive, true)
  }

  /** `Bearer ${token}` with the stored token, which prints as "null" when
      there is none. */
  function Authorization(stored: Option<string>): (h: string)
    ensures stored.None? ==> h == "Bearer null"
    ensures stored.Some? ==> h == "Bearer " + stored.value
  {
    "Bearer " + (if stored.Some? then stored.value else "null")
  }

  /** `registerUser`: the request is always sent, with the stored token as
      it stands; a non-OK reply throws its `detail`, or "Failed to register
      user" when it has none (or an empty one). */
  function RegisterUser(st: State, data: RegisterData, reply: Reply<()>): (r: (string, RegisterBody, Result<(), Failure>))
    ensures r.0 == Authorization(st.stored) && r.1 == Body(data)
    ensures r.2.Ok? <==> reply.Answered?
    ensures reply.Rejected? && reply.detail.Some? && reply.detail.value != "" ==> r.2 == Err(Message(reply.detail.value))
    ensures reply.Rejected? && (reply.detail.None? || reply.detail.value == "") ==> r.2 == Err(Message("Failed to register user"))
    ensures reply.Threw? ==> r.2 == Err(RequestFailed)
  {
    var outcome :=
      match reply
      case Answered(_) => Ok(())
      case Rejected(detail) => Err(Message(OrElse(detail, "Failed to register user")))
      case Threw => Err(RequestFailed);
    (Authorization(st.stored), Body(data), outcome)
  }

  /** After a login, the next fetch sends the new token. */
  lemma FetchAfterLogin(st: State, d: LoginData, me: Reply<User>)
    requires d.accessToken != ""
    ensures FetchUser(Login(st, Answered(d)).value, me).1 == Some(d.accessToken)
  {
  }

  /** After a logout, a fetch sends nothing and nobody is signed in. */
  lemma FetchAfterLogout(st: State, me: Reply<User>)
    ensures FetchUser(Logout(st), me) == (Logout(st).(loading := false), None)
  {
  }

  /** A failed `/me` removes the token but leaves the user signed in; a
      registration after it goes out as "Bearer null". */
  lemma FailedFetchKeepsUser(st: State, me: Reply<User>, data: RegisterData, reply: Reply<()>)
    requires st.stored.Some? && st.stored.value != "" && !me.Answered?
    ensures FetchUser(st, me).0.user == st.user
    ensures RegisterUser(FetchUser(st, me).0, data, reply).0 == "Bearer null"
  {
  }
}
