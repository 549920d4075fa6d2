/** The user table of the backend that `create` copies into a new project
    (the template variant). It differs from the dashboard's own backend:
    roles are free strings defaulting to "user", and the hashed password is
    nullable so that a newly registered user has none until first setup. */
module TemplateUsers {
  import opened Wrappers
  import opened Crypto
  import opened Rows

  const DefaultRole := "user"

  /** A row of `users`: `email` and `hashed_password` are nullable. */
  datatype User = User(
    id: int,
    username: string,
    email: Option<string>,
    fullName: string,
    hashedPassword: Option<Digest>,
    role: string,
    isActive: bool,
    needsPasswordSetup: bool)

  type Store = seq<User>

  /** The table's constraints: unique ids, unique usernames and unique
      e-mail addresses among those present. */
  ghost predicate Valid(s: Store) {
    && (forall i, j :: 0 <= i < j < |s| ==> s[i].id != s[j].id)
    && (forall i, j :: 0 <= i < j < |s| ==> s[i].username != s[j].username)
    && (forall i, j :: 0 <= i < j < |s| && s[i].email.Some? ==> s[i].email != s[j].email)
  }

  /** `passlib`'s `verify` against a nullable column: a missing digest
      accepts no password. */
  predicate Verifies(password: string, digest: Option<Digest>) {
    digest.Some? && VerifyPassword(password, digest.value)
  }

  function ByUsername(s: Store, name: string): Option<nat> {
    First(s, (u: User) => u.username == name)
  }

  function ById(s: Store, id: int): Option<nat> {
    First(s, (u: User) => u.id == id)
  }

  function ByEmail(s: Store, email: string): Option<nat> {
    First(s, (u: User) => u.email == Some(email))
  }

  /** In a valid table a username picks out exactly one row. */
  lemma ByUsernameUnique(s: Store, name: string, i: nat)
    requires Valid(s)
    requires i < |s| && s[i].username == name
    ensures ByUsername(s, name) == Some(i)
  {
  }

  /** `UserCreate` (all of `UserBase`). */
  datatype UserCreate = UserCreate(
    username: string,
    email: Option<string>,
    fullName: string,
    role: string,
    isActive: bool,
    needsPasswordSetup: bool)

  /** A `UserCreate` with only the required fields: no e-mail, role "user",
      active, waiting for a password. */
  function UserCreateDefaults(username: string, fullName: string): UserCreate {
    UserCreate(username, None, fullName, DefaultRole, true, true)
  }

  /** `UserResponse`: `UserBase` plus the id; the timestamps are not
      modelled. */
  datatype UserResponse = UserResponse(
    id: int,
    username: string,
    email: Option<string>,
    fullName: string,
    role: string,
    isActive: bool,
    needsPasswordSetup: bool)

  /** The response carries every column of the row except the digest. */
  function Respond(u: User): (r: UserResponse)
    ensures r.id == u.id && r.username == u.username && r.email == u.email && r.fullName == u.fullName
    ensures r.role == u.role && r.isActive == u.isActive && r.needsPasswordSetup == u.needsPasswordSetup
  {
    UserResponse(u.id, u.username, u.email, u.fullName, u.role, u.isActive, u.needsPasswordSetup)
  }

  datatype HttpError = HttpError(status: int, detail: string)
}
