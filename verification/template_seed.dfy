/** `create_default_users` of the template backend: unless a user called
    "admin" exists, the admin, a developer and a manager are added in one
    commit. Any other row already holding one of their usernames or e-mail
    addresses makes that commit fail on the unique columns, and nothing is
    added. */
module TemplateSeed {
  import opened Wrappers
  import opened Crypto
  import opened TemplateUsers
  import TemplateAuthRoutes
  import Rows

  /** The three default users, numbered from `firstId`. */
  function DefaultUsers(firstId: int): (us: Store)
    ensures |us| == 3
    ensures forall i :: 0 <= i < 3 ==> us[i].id == firstId + i && us[i].isActive && !us[i].needsPasswordSetup
    ensures forall i, j :: 0 <= i < j < 3 ==> us[i].username != us[j].username && us[i].email != us[j].email
    ensures forall i :: 0 <= i < 3 ==> us[i].email.Some?
  {
    [ User(firstId, "admin", Some("admin@example.com"), "System Administrator",
           Some(HashPassword("admin123")), "admin", true, false),
      User(firstId + 1, "developer", Some("developer@example.com"), "AI Developer",
           Some(HashPassword("dev123")), "developer", true, false),
      User(firstId + 2, "manager", Some("manager@example.com"), "Project Manager",
           Some(HashPassword("manager123")), "manager", true, false) ]
  }

  /** No existing row shares a username or an e-mail address with a
      default user. */
  predicate Clear(s: Store, us: Store) {
    forall j, k :: 0 <= j < |s| && 0 <= k < |us| ==>
      s[j].username != us[k].username && s[j].email != us[k].email
  }

  const IntegrityError := HttpError(500, "Internal Server Error")

  /** Seeding: the table is left alone exactly when a user called "admin"
      exists; otherwise the three default users are appended, or, when one
      of them clashes with an existing row, the commit fails. */
  function CreateDefaultUsers(s: Store): (r: Result<Store, HttpError>)
    requires Valid(s)
    ensures ByUsername(s, "admin").Some? ==> r == Ok(s)
    ensures ByUsername(s, "admin").None? ==>
              (r.Ok? <==> Clear(s, DefaultUsers(Rows.NextId(s, (row: User) => row.id))))
    ensures r.Ok? ==> Valid(r.value)
    ensures r.Ok? && ByUsername(s, "admin").None? ==>
              && |r.value| == |s| + 3 && r.value[..|s|] == s
              && r.value[|s|].username == "admin" && r.value[|s|].role == "admin"
              && r.value[|s| + 1].username == "developer" && r.value[|s| + 1].role == "developer"
              && r.value[|s| + 2].username == "manager" && r.value[|s| + 2].role == "manager"
              && (forall k :: |s| <= k < |s| + 3 ==> r.value[k].isActive && !r.value[k].needsPasswordSetup)
  {
    if ByUsername(s, "admin").Some? then Ok(s)
    else
      var us := DefaultUsers(Rows.NextId(s, (row: User) => row.id));
      if !Clear(s, us) then Err(IntegrityError)
      else
        var t := s + us;
        assert t[..|s|] == s;
        Ok(t)
  }

  /** After a successful seeding a second run changes nothing. */
  lemma SeedIdempotent(s: Store)
    requires Valid(s)
    requires CreateDefaultUsers(s).Ok?
    ensures CreateDefaultUsers(CreateDefaultUsers(s).value) == CreateDefaultUsers(s)
  {
    var t := CreateDefaultUsers(s).value;
    if ByUsername(s, "admin").None? {
      ByUsernameUnique(t, "admin", |s|);
    }
  }

  /** On an empty table the seeded manager logs in with its password, and
      with no other. */
  lemma SeededManagerLogin(settings: TemplateAuthRoutes.Settings, password: string, now: int)
    ensures CreateDefaultUsers([]).Ok?
    ensures TemplateAuthRoutes.Login(CreateDefaultUsers([]).value, settings, "manager", password, now).Ok?
            <==> password == "manager123"
  {
    TemplateAuthRoutes.LoginIff(CreateDefaultUsers([]).value, settings, "manager", password, now);
  }
}
