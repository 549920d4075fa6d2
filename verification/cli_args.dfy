/** The `run` command's action in the command-line entry point: Commander's
    option defaults, the heuristic that peels a trailing project, team and
    environment off the script arguments, and the options handed to
    `runAI`. */
module CliArgs {
  import opened Wrappers
  import opened Text
  import RunAI

  /** What Commander parsed for `run`: the options given on the command line
      (absent when not given) and the variadic script arguments. */
  datatype Flags = Flags(
    project: Option<string>,
    team: Option<string>,
    environment: Option<string>,
    config: Option<string>,
    noTrack: bool,
    dryRun: bool)

  /** The options object Commander passes to the action: `project`, `team`
      and `environment` have declared defaults, `--no-track` makes `track`
      default to true, and `--dry-run` is present only when given. */
  function CommanderOptions(flags: Flags): (o: RunAI.RunOptions)
    ensures o.project.Some? && o.team.Some? && o.environment.Some? && o.track.Some?
    ensures flags.project.None? ==> o.project == Some("default")
    ensures flags.team.None? ==> o.team == Some("default")
    ensures flags.environment.None? ==> o.environment == Some("development")
    ensures o.track == Some(!flags.noTrack)
    ensures o.dryRun.Some? <==> flags.dryRun
  {
    RunAI.RunOptions(
      Some(flags.project.GetOr("default")),
      Some(flags.team.GetOr("default")),
      Some(flags.environment.GetOr("development")),
      flags.config,
      Some(!flags.noTrack),
      if flags.dryRun then Some(true) else None)
  }

  /** The script arguments after peeling, and the project, team and
      environment that are then in force. */
  datatype Peeled = Peeled(args: seq<string>, project: string, team: string, environment: string)

  /** The guard of the heuristic: at least three arguments, the third from
      last is not `python` and the second from last is not
      `test_image_training.py`. */
  predicate PeelApplies(args: seq<string>) {
    |args| >= 3 && args[|args| - 3] != "python" && args[|args| - 2] != "test_image_training.py"
  }

  /** When the guard holds the last three arguments become project, team and
      environment and are removed; otherwise nothing changes. */
  function Peel(args: seq<string>, project: string, team: string, environment: string): (r: Peeled)
    ensures PeelApplies(args) ==> r.args + [r.project, r.team, r.environment] == args
    ensures !PeelApplies(args) ==> r == Peeled(args, project, team, environment)
  {
    if PeelApplies(args) then
      var n := |args|;
      assert args == args[..n - 3] + [args[n - 3], args[n - 2], args[n - 1]];
      Peeled(args[..n - 3], args[n - 3], args[n - 2], args[n - 1])
    else Peeled(args, project, team, environment)
  }

  /** Peeling takes back exactly the three words appended to any argument
      list, whatever was in force before, as long as the guard's two words
      are not in their places. */
  lemma PeelAppended(args: seq<string>, p: string, t: string, e: string, project: string, team: string, environment: string)
    requires p != "python" && t != "test_image_training.py"
    ensures Peel(args + [p, t, e], project, team, environment) == Peeled(args, p, t, e)
  {
    var all := args + [p, t, e];
    assert all[..|all| - 3] == args;
  }

  /** What the action hands to `runAI`: the remaining arguments joined with
      single spaces, and the options with falsy project, team and environment
      replaced by their defaults; `config`, `track` and `dryRun` pass
      through. */
  function RunCall(script: seq<string>, options: RunAI.RunOptions): (r: (string, RunAI.RunOptions))
    requires options.project.Some? && options.team.Some? && options.environment.Some?
    ensures r.1.config == options.config && r.1.track == options.track && r.1.dryRun == options.dryRun
    ensures r.1.project.Some? && Truthy(r.1.project.value)
    ensures r.1.team.Some? && Truthy(r.1.team.value)
    ensures r.1.environment.Some? && Truthy(r.1.environment.value)
    ensures !PeelApplies(script) ==>
              r.0 == JoinWith(script, ' ')
              && r.1.project == Some(OrElse(options.project, "default"))
              && r.1.team == Some(OrElse(options.team, "default"))
              && r.1.environment == Some(OrElse(options.environment, "development"))
    ensures PeelApplies(script) ==>
              r.0 == JoinWith(script[..|script| - 3], ' ')
  {
    var peeled := Peel(script, options.project.value, options.team.value, options.environment.value);
    (JoinWith(peeled.args, ' '),
     options.(project := Some(OrElse(Some(peeled.project), "default")),
              team := Some(OrElse(Some(peeled.team), "default")),
              environment := Some(OrElse(Some(peeled.environment), "development"))))
  }

  /** The whole `run` action up to the call of `runAI`. Without peeling, the
      run is attributed just as `runAI` would attribute the flags on their
      own: Commander's defaults agree with `runAI`'s. */
  function RunAction(script: seq<string>, flags: Flags): (r: (string, RunAI.RunOptions))
    ensures r.1.track == Some(!flags.noTrack)
    ensures r.1.project.Some? && r.1.team.Some? && r.1.environment.Some?
    ensures !PeelApplies(script) ==>
              RunAI.Attribute(r.1) ==
              RunAI.Attribute(RunAI.RunOptions(flags.project, flags.team, flags.environment, None, None, None))
  {
    RunCall(script, CommanderOptions(flags))
  }

  /** A command line of the form `<cmd> <args…> <project> <team> <env>`
      reaches `runAI` as the command and its arguments, attributed to the
      three trailing words (when they are non-empty), and `runAI` splits the
      command back into the same tokens when none contains a space. */
  lemma TrailingWordsAttribute(command: string, args: seq<string>, p: string, t: string, e: string, flags: Flags)
    requires p != "python" && t != "test_image_training.py"
    requires p != "" && t != "" && e != ""
    requires ' ' !in command
    requires forall i :: 0 <= i < |args| ==> ' ' !in args[i]
    ensures var r := RunAction([command] + args + [p, t, e], flags);
            && RunAI.ParseScript(r.0) == RunAI.Invocation(command, args)
            && RunAI.Attribute(r.1) == RunAI.Attribution(p, t, e)
  {
    var o := CommanderOptions(flags);
    PeelAppended([command] + args, p, t, e, o.project.value, o.team.value, o.environment.value);
    RunAI.ParseScriptOfJoin(command, args);
  }

  /** A three-word command line that passes the guard leaves an empty
      script: `runAI` then gets the empty command. */
  lemma ThreeWordsLeaveNoCommand(p: string, t: string, e: string, flags: Flags)
    requires p != "python" && t != "test_image_training.py"
    ensures RunAction([p, t, e], flags).0 == ""
  {
    var o := CommanderOptions(flags);
    PeelAppended([], p, t, e, o.project.value, o.team.value, o.environment.value);
  }
  /** The heuristic also fires on an ordinary command with two trailing
      arguments: `python train.py --epochs 5` is run as `python`, attributed
      to project `train.py`, team `--epochs` and environment `5`. */
  lemma FourWordScriptMisread(flags: Flags)
    ensures var r := RunAction(["python", "train.py", "--epochs", "5"], flags);
            && r.0 == "python"
            && RunAI.Attribute(r.1) == RunAI.Attribution("train.py", "--epochs", "5")
  {
    var o := CommanderOptions(flags);
    PeelAppended(["python"], "train.py", "--epochs", "5", o.project.value, o.team.value, o.environment.value);
    assert ["python"] + ["train.py", "--epochs", "5"] == ["python", "train.py", "--epochs", "5"];
  }
}
