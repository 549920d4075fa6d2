/** The template frontend's API addresses: a base URL, overridable by
    `NEXT_PUBLIC_API_URL`, and the metric and auth endpoints under it. */
module TemplateConfigApi {
  import opened Wrappers
  import opened Text
  import TemplateConfigAuth

  /** `API_CONFIG.baseUrl`. */
  function BaseUrl(apiUrl: Option<string>): (b: string)
    ensures apiUrl.Some? && apiUrl.value != "" ==> b == apiUrl.value
    ensures apiUrl.None? || apiUrl.value == "" ==> b == "http://localhost:8000"
  {
    OrElse(apiUrl, "http://localhost:8000")
  }

  /** `getApiUrl(endpoint)`: the endpoint appended to the base URL. */
  function GetApiUrl(apiUrl: Option<string>, endpoint: string): (r: string)
    ensures BaseUrl(apiUrl) <= r && r[|BaseUrl(apiUrl)|..] == endpoint
  {
    BaseUrl(apiUrl) + endpoint
  }

  /** `getMetricsUrl()`: the metrics endpoint under the base URL, which is
      the local backend unless the variable is set. */
  function GetMetricsUrl(apiUrl: Option<string>): (r: string)
    ensures r == BaseUrl(apiUrl) + "/api/metrics"
    ensures BaseUrl(apiUrl) <= r && r[|BaseUrl(apiUrl)|..] == "/api/metrics"
    ensures apiUrl.None? ==> r == "http://localhost:8000/api/metrics"
  {
    GetApiUrl(apiUrl, "/api/metrics")
  }

  /** The keys of `API_CONFIG.endpoints.auth`. */
  datatype AuthAction = Login | Register | Me

  function AuthEndpoint(a: AuthAction): (e: string)
    ensures "/api/auth/" <= e
  {
    match a
    case Login => "/api/auth/login"
    case Register => "/api/auth/register"
    case Me => "/api/auth/me"
  }

  /** `getAuthUrl(action)`: a path under `/api/auth/` below the base URL. */
  function GetAuthUrl(apiUrl: Option<string>, a: AuthAction): (r: string)
    ensures r == BaseUrl(apiUrl) + AuthEndpoint(a)
    ensures BaseUrl(apiUrl) <= r && "/api/auth/" <= r[|BaseUrl(apiUrl)|..]
    ensures apiUrl.None? ==> "http://localhost:8000/api/auth/" <= r
  {
    GetApiUrl(apiUrl, AuthEndpoint(a))
  }

  /** Each action has its own URL. */
  lemma AuthUrlsDistinct(apiUrl: Option<string>, a: AuthAction, b: AuthAction)
    requires a != b
    ensures GetAuthUrl(apiUrl, a) != GetAuthUrl(apiUrl, b)
  {
    var base := BaseUrl(apiUrl);
    assert GetAuthUrl(apiUrl, a)[|base|..] == AuthEndpoint(a);
    assert GetAuthUrl(apiUrl, b)[|base|..] == AuthEndpoint(b);
  }

  /** The metrics URL is none of the auth URLs. */
  lemma MetricsUrlNotAuthUrl(apiUrl: Option<string>, a: AuthAction)
    ensures GetMetricsUrl(apiUrl) != GetAuthUrl(apiUrl, a)
  {
    var base := BaseUrl(apiUrl);
    assert GetMetricsUrl(apiUrl)[|base| + 5] == "/api/metrics"[5] == 'm';
    assert GetAuthUrl(apiUrl, a)[|base| + 5] == "/api/auth/"[5] == 'a';
  }

  /** The two configuration files build the same auth URLs from the same
      variable, whatever the token key. */
  lemma AgreesWithAuthConfig(env: TemplateConfigAuth.Env)
    ensures var c := TemplateConfigAuth.GetAuthConfig(env);
            && GetAuthUrl(env.apiUrl, Login) == TemplateConfigAuth.GetApiUrl(env, c.loginEndpoint)
            && GetAuthUrl(env.apiUrl, Register) == TemplateConfigAuth.GetApiUrl(env, c.registerEndpoint)
            && GetAuthUrl(env.apiUrl, Me) == TemplateConfigAuth.GetApiUrl(env, c.meEndpoint)
  {
  }
}
