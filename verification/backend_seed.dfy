/** `create_default_users` of the backend: an empty user table gets an admin
    and a developer with known passwords; a table with any user is left
    alone. */
module BackendSeed {
  import opened Wrappers
  import opened Crypto
  import opened BackendUsers
  import BackendAuthRoutes
  import Rows

  /** The two default users, numbered from `firstId`. */
  function DefaultUsers(firstId: int): Store {
    [ User(firstId, "admin", Some("admin@company.com"), "System Administrator",
           HashPassword("admin123"), Admin, true, false),
      User(firstId + 1, "developer", Some("developer@company.com"), "AI Developer",
           HashPassword("dev123"), Developer, true, false) ]
  }

  /** Seeding: nothing happens when any user exists; otherwise exactly the
      admin and the developer are created, active, with their passwords
      stored hashed and already set up. */
  function CreateDefaultUsers(s: Store): (r: Store)
    requires Valid(s)
    ensures Valid(r)
    ensures |s| > 0 ==> r == s
    ensures |s| == 0 ==>
              && |r| == 2
              && r[0].username == "admin" && r[0].role == Admin
              && r[1].username == "developer" && r[1].role == Developer
              && (forall i :: 0 <= i < 2 ==> r[i].isActive && !r[i].needsPasswordSetup)
              && VerifyPassword("admin123", r[0].hashedPassword)
              && VerifyPassword("dev123", r[1].hashedPassword)
  {
    if |s| > 0 then s else DefaultUsers(Rows.NextId(s, (row: User) => row.id))
  }

  /** Running the seeding twice gives the same table as running it once. */
  lemma SeedIdempotent(s: Store)
    requires Valid(s)
    ensures CreateDefaultUsers(CreateDefaultUsers(s)) == CreateDefaultUsers(s)
  {
  }

  /** On a fresh table the seeded admin logs in with its password and with
      no other. */
  lemma SeededAdminLogin(password: string, now: int)
    ensures BackendAuthRoutes.Login(CreateDefaultUsers([]), "admin", password, now).Ok? <==> password == "admin123"
  {
    BackendAuthRoutes.LoginIff(CreateDefaultUsers([]), "admin", password, now);
  }
}
