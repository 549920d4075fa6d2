/** The dashboard frontend's authentication settings: a fixed default and
    three environment variables that may override it. The object spread
    copies the default before any field is assigned, so the default itself
    never changes; as values, that is `GetAuthConfig` building a new record. */
module FrontendAuthConfig {
  import opened Wrappers
  import opened Text
  import ProtectedRoute

  datatype Roles = Roles(admin: seq<string>, viewer: seq<string>, developer: seq<string>)

  datatype DefaultUser = DefaultUser(username: string, password: string, role: string, name: string, email: Option<string>)

  /** The settings; `sessionTimeout` is in minutes and is whatever
      `parseInt` made of the variable, NaN included. */
  datatype AuthConfig = AuthConfig(
    enabled: bool,
    authMethod: string,   // `method`
    sessionTimeout: JsInt,
    rememberMe: bool,
    roles: Roles,
    defaultUsers: seq<DefaultUser>)

  const DefaultAuthConfig := AuthConfig(
    true,
    "simple",
    Int(480),
    true,
    Roles(["read", "write", "delete", "manage_users", "view_analytics"],
          ["read", "view_analytics"],
          ["read", "write", "view_analytics"]),
    [DefaultUser("admin", "admin123", "admin", "System Administrator", Some("admin@company.com")),
     DefaultUser("manager", "manager123", "viewer", "Project Manager", Some("manager@company.com")),
     DefaultUser("developer", "dev123", "developer", "AI Developer", Some("developer@company.com"))])

  /** Every permission of a viewer is a developer's, and every permission
      of a developer is an admin's. */
  lemma PermissionsNest()
    ensures forall p :: p in DefaultAuthConfig.roles.viewer ==> p in DefaultAuthConfig.roles.developer
    ensures forall p :: p in DefaultAuthConfig.roles.developer ==> p in DefaultAuthConfig.roles.admin
  {
  }

  /** The default users have distinct names and roles the route guard
      ranks. */
  lemma DefaultUsersRanked()
    ensures var us := DefaultAuthConfig.defaultUsers;
            && (forall i, j :: 0 <= i < j < |us| ==> us[i].username != us[j].username)
            && (forall i :: 0 <= i < |us| ==> ProtectedRoute.Rank(us[i].role).Some?)
  {
  }

  /** The variables read; an absent one is `undefined`. */
  datatype Env = Env(authEnabled: Option<string>, authMethod: Option<string>, sessionTimeout: Option<string>)

  /** `getAuthConfig()`: a defined `NEXT_PUBLIC_AUTH_ENABLED` turns
      authentication on exactly when it is "true"; a non-empty
      `NEXT_PUBLIC_AUTH_METHOD` replaces the method; a non-empty
      `NEXT_PUBLIC_SESSION_TIMEOUT` is read with `parseInt`. Nothing else
      changes. */
  function GetAuthConfig(env: Env): (c: AuthConfig)
    ensures env.authEnabled.Some? ==> (c.enabled <==> env.authEnabled.value == "true")
    ensures env.authEnabled.None? ==> c.enabled == DefaultAuthConfig.enabled
    ensures c.authMethod == OrElse(env.authMethod, DefaultAuthConfig.authMethod)
    ensures env.sessionTimeout.Some? && env.sessionTimeout.value != "" ==>
              c.sessionTimeout == ParseInt(env.sessionTimeout.value, false)
    ensures env.sessionTimeout.None? || env.sessionTimeout.value == "" ==>
              c.sessionTimeout == DefaultAuthConfig.sessionTimeout
    ensures c.rememberMe == DefaultAuthConfig.rememberMe
    ensures c.roles == DefaultAuthConfig.roles && c.defaultUsers == DefaultAuthConfig.defaultUsers
  {
    var c := DefaultAuthConfig;
    var c := if env.authEnabled.Some? then c.(enabled := env.authEnabled.value == "true") else c;
    var c := if env.authMethod.Some? && Truthy(env.authMethod.value) then c.(authMethod := env.authMethod.value) else c;
    if env.sessionTimeout.Some? && Truthy(env.sessionTimeout.value) then c.(sessionTimeout := ParseInt(env.sessionTimeout.value, false))
    else c
  }

  /** With no variable set, the result is the default. */
  lemma NoEnvIsDefault()
    ensures GetAuthConfig(Env(None, None, None)) == DefaultAuthConfig
  {
  }

  /** A timeout written as a decimal number of minutes is read back as
      that number. */
  lemma TimeoutReadBack(env: Env, minutes: nat)
    requires env.sessionTimeout == Some(Decimal(minutes))
    ensures GetAuthConfig(env).sessionTimeout == Int(minutes)
  {
    ParseDecimal(minutes, false);
  }
}
