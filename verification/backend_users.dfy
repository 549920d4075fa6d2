/** The dashboard backend's user table and its request and response
    shapes. The table is the sequence of rows in insertion order, so that a
    query's `.first()` is the first matching row; the column constraints
    become the store invariant `Valid`. */
module BackendUsers {
  import opened Wrappers
  import opened Crypto
  import opened Rows

  /** `UserRole`: exactly three roles. */
  datatype Role = Admin | Viewer | Developer

  /** The role's stored value. */
  function RoleValue(r: Role): (v: string)
    ensures v in {"admin", "viewer", "developer"}
  {
    match r
    case Admin => "admin"
    case Viewer => "viewer"
    case Developer => "developer"
  }

  lemma RoleValueInjective(a: Role, b: Role)
    ensures RoleValue(a) == RoleValue(b) <==> a == b
  {
  }

  /** A row of `users`. `email` is nullable; the hashed password is a
      required column, empty for users who have not set one. */
  datatype User = User(
    id: int,
    username: string,
    email: Option<string>,
    fullName: string,
    hashedPassword: Digest,
    role: Role,
    isActive: bool,
    needsPasswordSetup: bool)

  type Store = seq<User>

  /** The constraints of the table: unique ids, unique usernames, unique
      e-mail addresses among those present (NULLs may repeat), and a real
      digest for every user who is not waiting to set a password. */
  ghost predicate Valid(s: Store) {
    && (forall i, j :: 0 <= i < j < |s| ==> s[i].id != s[j].id)
    && (forall i, j :: 0 <= i < j < |s| ==> s[i].username != s[j].username)
    && (forall i, j :: 0 <= i < j < |s| && s[i].email.Some? ==> s[i].email != s[j].email)
    && (forall i :: 0 <= i < |s| && !s[i].needsPasswordSetup ==> s[i].hashedPassword != Blank)
  }

  function ByUsername(s: Store, name: string): Option<nat> {
    First(s, (u: User) => u.username == name)
  }

  function ById(s: Store, id: int): Option<nat> {
    First(s, (u: User) => u.id == id)
  }

  function ByEmail(s: Store, email: string): Option<nat> {
    First(s, (u: User) => u.email == Some(email))
  }

  /** In a valid store a username picks out exactly one row. */
  lemma ByUsernameUnique(s: Store, name: string, i: nat)
    requires Valid(s)
    requires i < |s| && s[i].username == name
    ensures ByUsername(s, name) == Some(i)
  {
  }

  /** `UserCreate`. */
  datatype UserCreate = UserCreate(
    username: string,
    email: Option<string>,
    fullName: string,
    role: Role,
    isActive: bool,
    needsPasswordSetup: bool)

  /** A `UserCreate` with only the required fields given: no e-mail, role
      viewer, active, waiting for a password. */
  function UserCreateDefaults(username: string, fullName: string): UserCreate {
    UserCreate(username, None, fullName, Viewer, true, true)
  }

  /** `UserUpdate`: every field optional, `None` when not sent. */
  datatype UserUpdate = UserUpdate(
    username: Option<string>,
    email: Option<string>,
    fullName: Option<string>,
    role: Option<Role>,
    isActive: Option<bool>,
    needsPasswordSetup: Option<bool>,
    password: Option<string>)

  const EmptyUpdate := UserUpdate(None, None, None, None, None, None, None)

  /** `UserResponse`: the user without the password digest. */
  datatype UserResponse = UserResponse(
    id: int,
    username: string,
    email: Option<string>,
    fullName: string,
    role: Role,
    isActive: bool,
    needsPasswordSetup: bool)

  /** Every field of the user but the password digest, unchanged. */
  function Respond(u: User): (r: UserResponse)
    ensures r.id == u.id && r.username == u.username && r.role == u.role
    ensures r.email == u.email && r.fullName == u.fullName
    ensures r.isActive == u.isActive && r.needsPasswordSetup == u.needsPasswordSetup
  {
    UserResponse(u.id, u.username, u.email, u.fullName, u.role, u.isActive, u.needsPasswordSetup)
  }

  /** `Token`; `token_type` is always `"bearer"`. */
  datatype TokenResponse = TokenResponse(accessToken: Token, tokenType: string, user: UserResponse)

  const Bearer := "bearer"

  /** An HTTP error response: status code and detail. */
  datatype HttpError = HttpError(status: int, detail: string)
}
