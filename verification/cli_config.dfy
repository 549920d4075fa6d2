/** The command-line tool's `ConfigManager`: built-in defaults, overrides
    from `AI_DASHBOARD_*` environment variables, a JSON file merged on top
    one level deep, and saving. The manager's configuration is a value here;
    reading the environment and the file become parameters. */
module CliConfig {
  import opened Wrappers
  import opened Text

  /** The `dashboard` object. Every field may be missing, because a file's
      `dashboard` object replaces the whole object and need not have them. */
  datatype DashboardConfig = DashboardConfig(
    dashboardUrl: Option<string>,
    apiKey: Option<string>,
    timeout: Option<JsInt>)

  /** The whole configuration: the `dashboard` key and any other top-level
      keys a file brought in, with their JSON values kept as text. */
  datatype Config = Config(dashboard: DashboardConfig, others: map<string, string>)

  const DefaultUrl := "http://localhost:8000"
  const DefaultTimeout := 5000

  /** The configuration a new manager starts with. */
  function Initial(): (c: Config)
    ensures c.dashboard.dashboardUrl == Some("http://localhost:8000")
    ensures c.dashboard.timeout == Some(Int(5000))
    ensures c.dashboard.apiKey == None && c.others == map[]
  {
    Config(DashboardConfig(Some(DefaultUrl), None, Some(Int(DefaultTimeout))), map[])
  }

  /** The three environment variables; `None` when unset. */
  datatype Env = Env(url: Option<string>, apiKey: Option<string>, timeout: Option<string>)

  const NoEnv := Env(None, None, None)

  /** Set and non-empty: `if (envUrl)`. */
  predicate Given(v: Option<string>) {
    v.Some? && Truthy(v.value)
  }

  /** `loadFromEnvironment`: a set, non-empty variable replaces its field
      (the timeout as `parseInt(value, 10)`); other fields and keys stay. */
  function LoadFromEnvironment(c: Config, env: Env): (r: Config)
    ensures r.others == c.others
    ensures r.dashboard.dashboardUrl == (if Given(env.url) then env.url else c.dashboard.dashboardUrl)
    ensures r.dashboard.apiKey == (if Given(env.apiKey) then env.apiKey else c.dashboard.apiKey)
    ensures r.dashboard.timeout ==
              (if Given(env.timeout) then Some(ParseInt(env.timeout.value, true)) else c.dashboard.timeout)
  {
    var d := c.dashboard;
    var d1 := if Given(env.url) then d.(dashboardUrl := env.url) else d;
    var d2 := if Given(env.apiKey) then d1.(apiKey := env.apiKey) else d1;
    var d3 := if Given(env.timeout) then d2.(timeout := Some(ParseInt(env.timeout.value, true))) else d2;
    c.(dashboard := d3)
  }

  /** A partial configuration as read from the file or passed to
      `saveConfig`: the keys it has. */
  datatype Partial = Partial(dashboard: Option<DashboardConfig>, others: map<string, string>)

  /** `{ ...config, ...partial }`: each key the partial has replaces the
      whole value of that key; the merge does not look inside `dashboard`. */
  function Merge(c: Config, p: Partial): (r: Config)
    ensures p.dashboard.Some? ==> r.dashboard == p.dashboard.value
    ensures p.dashboard.None? ==> r.dashboard == c.dashboard
    ensures r.others.Keys == c.others.Keys + p.others.Keys
    ensures forall k :: k in p.others ==> r.others[k] == p.others[k]
    ensures forall k :: k in c.others && k !in p.others ==> r.others[k] == c.others[k]
  {
    Config(p.dashboard.GetOr(c.dashboard), c.others + p.others)
  }

  /** What reading the file gave. */
  datatype FileRead = NoFile | Unreadable | Parsed(content: Partial)

  /** `loadFromFile`: a parsed file is merged on top; no file, or a file
      that cannot be read or parsed (the error is only logged), leaves the
      configuration as it was. */
  function LoadFromFile(c: Config, file: FileRead): (r: Config)
    ensures !file.Parsed? ==> r == c
    ensures file.Parsed? ==> r == Merge(c, file.content)
  {
    if file.Parsed? then Merge(c, file.content) else c
  }

  /** `loadConfig`: the environment first, then the file. */
  function LoadConfig(c: Config, env: Env, file: FileRead): (r: Config)
    // A file with a `dashboard` key wins outright, environment included.
    ensures file.Parsed? && file.content.dashboard.Some? ==>
              r.dashboard == file.content.dashboard.value
    // Without one, the environment overrides are what is left in force.
    ensures !(file.Parsed? && file.content.dashboard.Some?) ==>
              r.dashboard == LoadFromEnvironment(c, env).dashboard
  {
    LoadFromFile(LoadFromEnvironment(c, env), file)
  }

  /** `getDashboardConfig`: the `dashboard` field of the freshly loaded
      configuration, and the manager's configuration afterwards. */
  function GetDashboardConfig(c: Config, env: Env, file: FileRead): (r: (DashboardConfig, Config))
    ensures r.0 == r.1.dashboard
    ensures r.1 == LoadConfig(c, env, file)
    // The file's `dashboard` object when it has one, else each field from
    // its environment variable when set, else as it was.
    ensures file.Parsed? && file.content.dashboard.Some? ==> r.0 == file.content.dashboard.value
    ensures !(file.Parsed? && file.content.dashboard.Some?) ==>
              && r.0.dashboardUrl == (if Given(env.url) then env.url else c.dashboard.dashboardUrl)
              && r.0.apiKey == (if Given(env.apiKey) then env.apiKey else c.dashboard.apiKey)
              && r.0.timeout == (if Given(env.timeout) then Some(ParseInt(env.timeout.value, true))
                                 else c.dashboard.timeout)
    // Other keys: the file's, then the manager's.
    ensures r.1.others == c.others + (if file.Parsed? then file.content.others else map[])
  {
    var loaded := LoadConfig(c, env, file);
    (loaded.dashboard, loaded)
  }

  /** With no environment variables and no file the defaults are what a
      fresh manager loads. */
  lemma LoadDefaults()
    ensures LoadConfig(Initial(), NoEnv, NoFile) == Initial()
  {
  }

  /** Loading twice with the same environment and file is the same as loading
      once. */
  lemma LoadConfigIdempotent(c: Config, env: Env, file: FileRead)
    ensures LoadConfig(LoadConfig(c, env, file), env, file) == LoadConfig(c, env, file)
  {
    var once := LoadConfig(c, env, file);
    if file.Parsed? {
      var p := file.content;
      assert LoadFromEnvironment(c, env).others + p.others + p.others == LoadFromEnvironment(c, env).others + p.others;
    }
  }

  /** Merging is an overwrite: merging the same partial twice changes
      nothing more, and two merges in a row are one merge of the combined
      partial. */
  lemma MergeTwice(c: Config, p: Partial, q: Partial)
    ensures Merge(Merge(c, p), p) == Merge(c, p)
    ensures Merge(Merge(c, p), q) == Merge(c, Partial(if q.dashboard.Some? then q.dashboard else p.dashboard, p.others + q.others))
  {
    assert c.others + p.others + p.others == c.others + p.others;
    assert c.others + p.others + q.others == c.others + (p.others + q.others);
  }

  /** What the file system did when saving. */
  datatype SaveIo = Saved | DirFailed | WriteFailed

  datatype SaveError = FailedToSave

  /** `saveConfig(partial)`: the manager's configuration becomes the merge of
      the current one with the partial (unless creating the directory failed
      first), and exactly that is written to the file. Returns the new
      configuration, what was written and whether the call succeeded. */
  function SaveConfig(c: Config, p: Partial, io: SaveIo): (r: (Config, Option<Config>, Result<(), SaveError>))
    ensures r.2.Ok? <==> io == Saved
    ensures io == DirFailed ==> r.0 == c && r.1 == None
    ensures io != DirFailed ==> r.0 == Merge(c, p)
    ensures r.1.Some? ==> r.1.value == r.0 && io == Saved
  {
    match io
    case DirFailed => (c, None, Err(FailedToSave))
    case WriteFailed => (Merge(c, p), None, Err(FailedToSave))
    case Saved => (Merge(c, p), Some(Merge(c, p)), Ok(()))
  }

  /** What `JSON.stringify` makes of a configuration, read back: a timeout
      that is not a number is written as `null`, which comes back as no
      timeout; every other field and key comes back as it was. */
  function ThroughJson(c: Config): (r: Config)
    ensures r.others == c.others
    ensures r.dashboard.dashboardUrl == c.dashboard.dashboardUrl && r.dashboard.apiKey == c.dashboard.apiKey
    ensures c.dashboard.timeout != Some(NaN) ==> r == c
    ensures c.dashboard.timeout == Some(NaN) ==> r.dashboard.timeout == None
  {
    if c.dashboard.timeout == Some(NaN) then c.(dashboard := c.dashboard.(timeout := None)) else c
  }

  /** Saving, then loading the file back with no environment variables set:
      the saved `dashboard` object returns, except that a timeout that was
      not a number is lost. */
  lemma SaveThenLoadJson(c: Config, p: Partial, other: Config)
    ensures var saved := ThroughJson(SaveConfig(c, p, Saved).1.value);
            var loaded := LoadConfig(other, NoEnv, Parsed(Partial(Some(saved.dashboard), saved.others))).dashboard;
            && loaded.dashboardUrl == Merge(c, p).dashboard.dashboardUrl
            && loaded.apiKey == Merge(c, p).dashboard.apiKey
            && (Merge(c, p).dashboard.timeout != Some(NaN) ==> loaded == Merge(c, p).dashboard)
            && (Merge(c, p).dashboard.timeout == Some(NaN) ==> loaded.timeout == None)
  {
  }

  /** What was saved loads back: a file holding the saved configuration,
      loaded on top of anything with no environment variables set, gives
      the saved `dashboard` object back. */
  lemma SaveThenLoad(c: Config, p: Partial, other: Config)
    ensures var saved := SaveConfig(c, p, Saved).1.value;
            LoadConfig(other, NoEnv, Parsed(Partial(Some(saved.dashboard), saved.others))).dashboard
              == Merge(c, p).dashboard
  {
  }
}
