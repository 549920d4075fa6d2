/** `ai-impact-tracker run`: the script command is split into a command and
    its arguments, and then the run is either described (dry run), executed
    directly without tracking, or wrapped in a Python tracking script that is
    written into the working directory, executed and removed again. */
module RunAI {
  import opened Wrappers
  import opened Text
  import opened Paths
  import opened FileSystem
  import opened Process

  /** The options `runAI` receives; every field may be absent. */
  datatype RunOptions = RunOptions(
    project: Option<string>,
    team: Option<string>,
    environment: Option<string>,
    config: Option<string>,
    track: Option<bool>,
    dryRun: Option<bool>)

  /** A command and its arguments. */
  datatype Invocation = Invocation(command: string, args: seq<string>)

  /** `script.split(' ')`: the first token is the command, the rest are its
      arguments; re-joining them with single spaces gives the script back. */
  function ParseScript(script: string): (inv: Invocation)
    ensures JoinWith([inv.command] + inv.args, ' ') == script
    ensures ' ' !in inv.command
    ensures forall i :: 0 <= i < |inv.args| ==> ' ' !in inv.args[i]
  {
    var parts := Split(script, ' ');
    assert parts == [parts[0]] + parts[1..];
    Invocation(parts[0], parts[1..])
  }

  /** Parsing a space-joined command line gives back its tokens, so a
      command and arguments without spaces survive the round trip. */
  lemma ParseScriptOfJoin(command: string, args: seq<string>)
    requires ' ' !in command
    requires forall i :: 0 <= i < |args| ==> ' ' !in args[i]
    ensures ParseScript(JoinWith([command] + args, ' ')) == Invocation(command, args)
  {
    var parts := [command] + args;
    forall i | 0 <= i < |parts| ensures ' ' !in parts[i] {
      if i > 0 {
        assert parts[i] == args[i - 1];
      }
    }
    SplitJoin(parts, ' ');
    assert parts[1..] == args;
  }

  /** The project, team and environment a run is attributed to. */
  datatype Attribution = Attribution(project: string, team: string, environment: string)

  const DefaultProject := "default"
  const DefaultTeam := "default"
  const DefaultEnvironment := "development"

  /** `options.project || 'default'` and so on: an explicit non-empty value
      is kept, anything else falls back, so every field is non-empty. */
  function Attribute(options: RunOptions): (a: Attribution)
    ensures Truthy(a.project) && Truthy(a.team) && Truthy(a.environment)
    ensures options.project.Some? && Truthy(options.project.value) ==> a.project == options.project.value
    ensures options.team.Some? && Truthy(options.team.value) ==> a.team == options.team.value
    ensures options.environment.Some? && Truthy(options.environment.value) ==>
              a.environment == options.environment.value
    ensures options.project == None ==> a.project == "default"
    ensures options.team == None ==> a.team == "default"
    ensures options.environment == None ==> a.environment == "development"
  {
    Attribution(
      OrElse(options.project, DefaultProject),
      OrElse(options.team, DefaultTeam),
      OrElse(options.environment, DefaultEnvironment))
  }

  /** What ends up in files of the working directory: the generated tracking
      wrapper (its Python text is not modelled, only what it is made from) or
      anything else. */
  datatype Content = TrackingWrapper(script: string, attribution: Attribution) | UserFile(text: string)

  const TempScriptName := "temp_tracking_script.py"

  /** `path.join(process.cwd(), 'temp_tracking_script.py')`. */
  function TempScriptPath(cwd: Path): (p: Path)
    requires Normal(cwd)
    ensures p == Path(cwd.absolute, cwd.segs + [TempScriptName])
    ensures Parent(p) == cwd
  {
    JoinPlain(cwd, [TempScriptName]);
    assert (cwd.segs + [TempScriptName])[..|cwd.segs|] == cwd.segs;
    JoinSegs(cwd, [TempScriptName])
  }

  /** `createTrackingWrapper`: the wrapper for the whole script string,
      attributed with the defaults filled in, written into the working
      directory; the write fails when that directory does not exist or when
      a directory already has the script's name. */
  function CreateTrackingWrapper(fs: FS<Content>, cwd: Path, script: string, options: RunOptions)
    : (r: Result<FS<Content>, FsError>)
    requires Normal(cwd)
    ensures r.Ok? <==> cwd in fs.dirs && TempScriptPath(cwd) !in fs.dirs
    ensures TempScriptPath(cwd) in fs.dirs ==> r == Err(IsADirectory(TempScriptPath(cwd)))
    ensures r.Ok? ==> r.value.dirs == fs.dirs
    ensures r.Ok? ==> r.value.files == fs.files[TempScriptPath(cwd) := TrackingWrapper(script, Attribute(options))]
  {
    WriteFile(fs, TempScriptPath(cwd), TrackingWrapper(script, Attribute(options)))
  }

  /** `runTrackingScript`: the temporary script is removed whether the child
      closes or fails to start, and the promise settles by the exit code. */
  function RunTrackingScript(fs: FS<Content>, scriptPath: Path, child: ChildEvent)
    : (r: (FS<Content>, Result<(), Failure>))
    ensures !Exists(r.0, scriptPath)
    ensures r.1.Ok? <==> child == Close(Some(0))
  {
    (Remove(fs, scriptPath), Settle(child))
  }

  /** Which branch of `runAI` is taken: a dry run wins over `track`, and only
      `track === false` disables tracking. */
  datatype Mode = DescribeOnly | Untracked | Tracked

  function Dispatch(options: RunOptions): (m: Mode)
    ensures m == DescribeOnly <==> options.dryRun == Some(true)
    ensures m == Untracked <==> options.dryRun != Some(true) && options.track == Some(false)
  {
    if options.dryRun == Some(true) then DescribeOnly
    else if options.track == Some(false) then Untracked
    else Tracked
  }

  /** What a run did. */
  datatype Action =
    | Described(commandLine: string, attribution: Attribution)
    | RanDirect(inv: Invocation)
    | RanNothing
    | RanWrapper(scriptPath: Path)

  datatype RunError = ChildFailed(failure: Failure) | WrapperNotWritten(error: FsError)

  datatype Outcome = Outcome(fs: FS<Content>, action: Action, result: Result<(), RunError>)

  function Lift(r: Result<(), Failure>): (l: Result<(), RunError>)
    ensures l.Ok? <==> r.Ok?
  {
    if r.Ok? then Ok(()) else Err(ChildFailed(r.error))
  }

  /** `runAI(script, options)` run from the working directory `cwd`; `child`
      is how the one process it may spawn ends. */
  function Run(fs: FS<Content>, cwd: Path, script: string, options: RunOptions, child: ChildEvent)
    : (r: Outcome)
    requires Normal(cwd)
    // A dry run only describes: nothing is spawned or written, and it succeeds.
    ensures options.dryRun == Some(true) ==>
              r.fs == fs && r.result.Ok? && r.action.Described?
              && r.action.attribution == Attribute(options)
    // Untracked: no wrapper, the command itself is run if it is non-empty.
    ensures options.dryRun != Some(true) && options.track == Some(false) ==>
              && r.fs == fs
              && (r.action == RanDirect(ParseScript(script)) <==> Truthy(ParseScript(script).command))
              && (r.result.Ok? <==> !Truthy(ParseScript(script).command) || child == Close(Some(0)))
    // Tracked: the wrapper is written to the temporary path and is gone
    // afterwards, every other file is as before, and the run succeeds
    // exactly when the wrapper could be written and exited with 0. When it
    // cannot be written (no working directory, or a directory with the
    // script's name) nothing is spawned and nothing changes.
    ensures options.dryRun != Some(true) && options.track != Some(false) ==>
              var path := TempScriptPath(cwd);
              && (r.result.Ok? <==> cwd in fs.dirs && path !in fs.dirs && child == Close(Some(0)))
              && (cwd in fs.dirs && path !in fs.dirs ==> !Exists(r.fs, path) && r.action == RanWrapper(path))
              && (cwd !in fs.dirs || path in fs.dirs ==>
                    r.fs == fs && r.action == RanNothing && r.result.Err? && r.result.error.WrapperNotWritten?)
              && (path in fs.dirs ==> r.result == Err(WrapperNotWritten(IsADirectory(path))))
              && (forall q :: q in fs.files && !IsPrefix(TempScriptPath(cwd), q) ==>
                    q in r.fs.files && r.fs.files[q] == fs.files[q])
              && (forall q :: q in r.fs.files ==> q in fs.files)
  {
    var inv := ParseScript(script);
    match Dispatch(options)
    case DescribeOnly =>
      Outcome(fs, Described(inv.command + " " + JoinWith(inv.args, ' '), Attribute(options)), Ok(()))
    case Untracked =>
      if Truthy(inv.command) then Outcome(fs, RanDirect(inv), Lift(Settle(child)))
      else Outcome(fs, RanNothing, Ok(()))
    case Tracked =>
      match CreateTrackingWrapper(fs, cwd, script, options)
      case Err(e) => Outcome(fs, RanNothing, Err(WrapperNotWritten(e)))
      case Ok(written) =>
        var path := TempScriptPath(cwd);
        var (after, settled) := RunTrackingScript(written, path, child);
        Outcome(after, RanWrapper(path), Lift(settled))
  }

  /** A dry run does not depend on how a child would have ended: nothing is
      spawned. */
  lemma DryRunSpawnsNothing(fs: FS<Content>, cwd: Path, script: string, options: RunOptions,
                            a: ChildEvent, b: ChildEvent)
    requires Normal(cwd)
    requires options.dryRun == Some(true)
    ensures Run(fs, cwd, script, options, a) == Run(fs, cwd, script, options, b)
  {
  }

  /** An empty untracked command spawns nothing either. */
  lemma EmptyUntrackedSpawnsNothing(fs: FS<Content>, cwd: Path, options: RunOptions,
                                    a: ChildEvent, b: ChildEvent)
    requires Normal(cwd)
    requires options.dryRun != Some(true) && options.track == Some(false)
    ensures Run(fs, cwd, "", options, a) == Run(fs, cwd, "", options, b)
    ensures Run(fs, cwd, "", options, a).result.Ok?
  {
  }

  /** When nothing lives at or under the temporary path beforehand, a
      tracked run leaves the file system exactly as it found it. */
  lemma TrackedRunRestores(fs: FS<Content>, cwd: Path, script: string, options: RunOptions, child: ChildEvent)
    requires Normal(cwd)
    requires options.dryRun != Some(true) && options.track != Some(false)
    requires forall q :: q in fs.files ==> !IsPrefix(TempScriptPath(cwd), q)
    requires forall q :: q in fs.dirs ==> !IsPrefix(TempScriptPath(cwd), q)
    ensures Run(fs, cwd, script, options, child).fs == fs
  {
    var r := Run(fs, cwd, script, options, child);
    assert r.fs.files == fs.files;
  }
}
