/** The template frontend's authentication settings: the API's base URL,
    the local-storage key of the token, and the auth endpoints, with two
    environment variables that may override the URL and the key. */
module TemplateConfigAuth {
  import opened Wrappers
  import opened Text
  import TemplateAuthContext

  datatype AuthConfig = AuthConfig(
    apiUrl: string,
    tokenKey: string,
    loginEndpoint: string,
    registerEndpoint: string,
    meEndpoint: string,
    setupPasswordEndpoint: string)

  /** `NEXT_PUBLIC_API_URL` and `NEXT_PUBLIC_AUTH_TOKEN_KEY`; an absent one
      is `undefined`. */
  datatype Env = Env(apiUrl: Option<string>, tokenKey: Option<string>)

  const LocalApi := "http://localhost:8000"

  /** `defaultAuthConfig`, whose URL is already read from the environment
      when the module loads. */
  function DefaultAuthConfig(env: Env): AuthConfig {
    AuthConfig(OrElse(env.apiUrl, LocalApi), "authToken",
               "/api/auth/login", "/api/auth/register", "/api/auth/me", "/api/auth/setup-password")
  }

  /** Every endpoint lies under "/api/auth/". */
  lemma EndpointsUnderAuth(env: Env)
    ensures var c := DefaultAuthConfig(env);
            && "/api/auth/" <= c.loginEndpoint && "/api/auth/" <= c.registerEndpoint
            && "/api/auth/" <= c.meEndpoint && "/api/auth/" <= c.setupPasswordEndpoint
  {
  }

  /** `getAuthConfig()`: the URL and the key each taken from a non-empty
      variable, the defaults otherwise; the endpoints are fixed. */
  function GetAuthConfig(env: Env): (c: AuthConfig)
    ensures env.apiUrl.Some? && env.apiUrl.value != "" ==> c.apiUrl == env.apiUrl.value
    ensures env.apiUrl.None? || env.apiUrl.value == "" ==> c.apiUrl == LocalApi
    ensures env.tokenKey.Some? && env.tokenKey.value != "" ==> c.tokenKey == env.tokenKey.value
    ensures env.tokenKey.None? || env.tokenKey.value == "" ==> c.tokenKey == "authToken"
    ensures c == DefaultAuthConfig(env).(apiUrl := c.apiUrl, tokenKey := c.tokenKey)
  {
    var c := DefaultAuthConfig(env);
    var c := if env.apiUrl.Some? && Truthy(env.apiUrl.value) then c.(apiUrl := env.apiUrl.value) else c;
    if env.tokenKey.Some? && Truthy(env.tokenKey.value) then c.(tokenKey := env.tokenKey.value) else c
  }

  /** `getApiUrl(endpoint)`: the endpoint appended to the URL. */
  function GetApiUrl(env: Env, endpoint: string): (r: string)
    ensures GetAuthConfig(env).apiUrl <= r
    ensures r[|GetAuthConfig(env).apiUrl|..] == endpoint
  {
    GetAuthConfig(env).apiUrl + endpoint
  }

  /** Different endpoints give different URLs. */
  lemma GetApiUrlInjective(env: Env, e: string, e': string)
    requires GetApiUrl(env, e) == GetApiUrl(env, e')
    ensures e == e'
  {
    assert e == GetApiUrl(env, e)[|GetAuthConfig(env).apiUrl|..];
  }

  /** `getTokenKey()`. */
  function GetTokenKey(env: Env): (k: string)
    ensures k != ""
    ensures k == OrElse(env.tokenKey, "authToken")
  {
    GetAuthConfig(env).tokenKey
  }

  /** The authentication context stores its token under a fixed key, which
      is this key only when the variable does not change it. */
  lemma ContextKeyIgnoresOverride(env: Env)
    ensures GetTokenKey(env) == TemplateAuthContext.TokenKey
            <==> env.tokenKey.None? || env.tokenKey.value in {"", "authToken"}
  {
  }
}
