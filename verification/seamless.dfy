/** `startSeamless` from the compiled start command: option defaults, the
    optional dependency check and install, and the Python wrapper that
    embeds the user's script in a single-quoted Python string literal
    (`script_command = '…'`) and is run with `python -c`. */
module Seamless {
  import opened Wrappers
  import opened Text
  import opened Process

  datatype StartOptions = StartOptions(
    project: Option<string>,
    team: Option<string>,
    environment: Option<string>,
    autoInstall: Option<bool>)

  datatype Metadata = Metadata(project: string, team: string, environment: string)

  /** `options.project || 'default'` and so on. */
  function ResolveMetadata(options: StartOptions): (m: Metadata)
    ensures Truthy(m.project) && Truthy(m.team) && Truthy(m.environment)
    ensures options.project.Some? && Truthy(options.project.value) ==> m.project == options.project.value
    ensures options.team.Some? && Truthy(options.team.value) ==> m.team == options.team.value
    ensures options.environment.Some? && Truthy(options.environment.value) ==>
              m.environment == options.environment.value
    ensures options.project == None ==> m.project == "default"
    ensures options.team == None ==> m.team == "default"
    ensures options.environment == None ==> m.environment == "development"
  {
    Metadata(
      OrElse(options.project, "default"),
      OrElse(options.team, "default"),
      OrElse(options.environment, "development"))
  }

  /** `options.autoInstall !== false`: only an explicit `false` disables
      the dependency check. */
  predicate AutoInstall(options: StartOptions) {
    options.autoInstall != Some(false)
  }

  // ---------------------------------------------------------------------
  // Python single-quoted string literals

  /** A character that ends a line of Python source. */
  predicate LineEnd(c: char) {
    c == '\n' || c == '\r'
  }

  /** What the escape `\c` stands for in a Python string literal. A
      backslash before a line end continues the line; unrecognised escapes
      keep their backslash. */
  function EscapeValue(c: char): string {
    match c
    case '\\' => "\\"
    case '\'' => "'"
    case '"' => "\""
    case 'n' => "\n"
    case 'r' => "\r"
    case 't' => "\t"
    case '\n' => ""
    case _ => ['\\', c]
  }

  /** Reads a single-quoted Python string literal from `s`, which starts just
      after the opening quote: the decoded value and the source text after
      the closing quote, or `None` when the line or the text ends first (a
      syntax error). */
  function ReadQuoted(s: string): (r: Option<(string, string)>)
    ensures r.Some? ==> |r.value.1| < |s|
    decreases |s|
  {
    if |s| == 0 then None
    else if s[0] == '\'' then Some(("", s[1..]))
    else if LineEnd(s[0]) then None
    else if s[0] == '\\' then
      if |s| == 1 then None
      else
        match ReadQuoted(s[2..])
        case None => None
        case Some(lit) => Some((EscapeValue(s[1]) + lit.0, lit.1))
    else
      match ReadQuoted(s[1..])
      case None => None
      case Some(lit) => Some(([s[0]] + lit.0, lit.1))
  }

  /** The escaping the wrapper applies, as written: `script.replace(/'/g,
      "\\'")`, every quote gets a backslash and nothing else changes. */
  function EscapeQuotesAsWritten(script: string): (r: string)
    ensures '\'' !in script ==> r == script
    ensures |r| == |script| + Count(script, '\'')
  {
    ReplaceAll(script, '\'', "\\'")
  }

  /** Character by character: the `i`-th character of the script stands
      after the escaped text before it, a quote as backslash and quote, any
      other character unchanged. */
  lemma EscapeQuotesAsWrittenAt(script: string, i: nat)
    requires i < |script|
    ensures var r := EscapeQuotesAsWritten(script);
            var j := i + Count(script[..i], '\'');
            if script[i] == '\'' then j + 1 < |r| && r[j] == '\\' && r[j + 1] == '\''
            else j < |r| && r[j] == script[i]
  {
    ReplaceAllSplice(script, '\'', "\\'", i);
    assert |EscapeQuotesAsWritten(script[..i])| == i + Count(script[..i], '\'');
  }

  /** The escape of one character for a single-quoted Python literal. */
  function EscapeChar(c: char): string {
    if c == '\\' then "\\\\"
    else if c == '\'' then "\\'"
    else if c == '\n' then "\\n"
    else if c == '\r' then "\\r"
    else [c]
  }

  /** Escaping that also doubles backslashes and spells out line ends, so
      the literal always reads back as the script. */
  function EscapePython(script: string): (r: string)
    ensures forall i :: 0 <= i < |r| ==> !LineEnd(r[i])
    ensures |r| >= |script|
  {
    if |script| == 0 then ""
    else EscapeChar(script[0]) + EscapePython(script[1..])
  }

  /** The literal `'<EscapePython(script)>'` followed by any source text
      reads back as exactly the script, and reading resumes right after the
      closing quote. */
  lemma {:induction false} EscapePythonRoundTrip(script: string, tail: string)
    ensures ReadQuoted(EscapePython(script) + "'" + tail) == Some((script, tail))
    decreases |script|
  {
    if |script| == 0 {
      assert EscapePython(script) + "'" + tail == "'" + tail;
    } else {
      var c, rest := script[0], script[1..];
      var x := EscapePython(rest) + "'" + tail;
      assert script == [c] + rest;
      assert EscapePython(script) == EscapeChar(c) + EscapePython(rest);
      assert EscapePython(script) + "'" + tail == EscapeChar(c) + x;
      EscapePythonRoundTrip(rest, tail);
      ReadEscapedChar(c, x);
    }
  }

  /** One escaped character in front of a literal's remaining text reads
      back as that character in front of what the rest reads as. */
  lemma ReadEscapedChar(c: char, x: string)
    ensures ReadQuoted(EscapeChar(c) + x)
            == match ReadQuoted(x)
               case None => None
               case Some(lit) => Some(([c] + lit.0, lit.1))
  {
    if c == '\\' || c == '\'' || c == '\n' || c == '\r' {
      var k := EscapeChar(c)[1];
      assert EscapeChar(c) + x == ['\\', k] + x;
      assert (['\\', k] + x)[2..] == x;
      assert EscapeValue(k) == [c];
    } else {
      assert EscapeChar(c) + x == [c] + x;
      assert ([c] + x)[1..] == x;
    }
  }

  /** Without backslashes or line ends in the script, the escaping as
      written is the full escaping. */
  lemma {:induction false} AsWrittenAgrees(script: string)
    requires '\\' !in script && '\n' !in script && '\r' !in script
    ensures EscapeQuotesAsWritten(script) == EscapePython(script)
    decreases |script|
  {
    if |script| > 0 {
      AsWrittenAgrees(script[1..]);
    }
  }

  /** So for such scripts the literal reads back as the script. */
  lemma AsWrittenRoundTrip(script: string, tail: string)
    requires '\\' !in script && '\n' !in script && '\r' !in script
    ensures ReadQuoted(EscapeQuotesAsWritten(script) + "'" + tail) == Some((script, tail))
  {
    AsWrittenAgrees(script);
    EscapePythonRoundTrip(script, tail);
  }

  /** A script ending in a backslash, such as `a\`, is left as it is by the
      escaping as written; the backslash then escapes the closing quote and
      the literal runs into the end of the line. */
  lemma AsWrittenTrailingBackslash()
    ensures ReadQuoted(EscapeQuotesAsWritten("a\\") + "'" + "\n") == None
    ensures ReadQuoted(EscapePython("a\\") + "'" + "\n") == Some(("a\\", "\n"))
  {
    assert '\'' !in "a\\";
    var s := EscapeQuotesAsWritten("a\\") + "'" + "\n";
    assert s == ['a', '\\', '\'', '\n'];
    assert ReadQuoted(['\n']) == None;
    assert s[1..] == ['\\', '\'', '\n'];
    assert s[1..][2..] == ['\n'];
    EscapePythonRoundTrip("a\\", "\n");
  }

  // ---------------------------------------------------------------------
  // The start flow

  /** The wrapper program, reduced to what it is made from: the text placed
      between the quotes of `script_command = '…'` and the metadata. */
  datatype Wrapper = Wrapper(scriptLiteral: string, metadata: Metadata)

  /** `createSeamlessWrapper` as written: only quotes are escaped, so the
      literal reads back as the script when the script has no backslash and
      no line end, and may not otherwise. */
  function CreateSeamlessWrapper(script: string, metadata: Metadata): (w: Wrapper)
    ensures w.metadata == metadata
    ensures |w.scriptLiteral| == |script| + Count(script, '\'')
    ensures '\\' !in script && '\n' !in script && '\r' !in script ==>
              forall tail :: ReadQuoted(w.scriptLiteral + "'" + tail) == Some((script, tail))
  {
    forall tail | '\\' !in script && '\n' !in script && '\r' !in script
      ensures ReadQuoted(EscapeQuotesAsWritten(script) + "'" + tail) == Some((script, tail))
    {
      AsWrittenRoundTrip(script, tail);
    }
    Wrapper(EscapeQuotesAsWritten(script), metadata)
  }

  /** The wrapper for the script `a\` does not read back: its literal runs on
      past the closing quote. The corrected wrapper's does. */
  lemma WrapperLosesTrailingBackslash(metadata: Metadata)
    ensures ReadQuoted(CreateSeamlessWrapper("a\\", metadata).scriptLiteral + "'" + "\n") == None
    ensures ReadQuoted(CorrectedSeamlessWrapper("a\\", metadata).scriptLiteral + "'" + "\n") == Some(("a\\", "\n"))
  {
    AsWrittenTrailingBackslash();
  }

  /** `createSeamlessWrapper` with the escaping corrected: whatever the
      script, the literal reads back as exactly the script. */
  function CorrectedSeamlessWrapper(script: string, metadata: Metadata): (w: Wrapper)
    ensures w.metadata == metadata
    ensures forall tail :: ReadQuoted(w.scriptLiteral + "'" + tail) == Some((script, tail))
  {
    forall tail ensures ReadQuoted(EscapePython(script) + "'" + tail) == Some((script, tail)) {
      EscapePythonRoundTrip(script, tail);
    }
    Wrapper(EscapePython(script), metadata)
  }

  /** The children `startSeamless` spawns, in order. */
  datatype Spawn = DependencyCheck | PipInstall | RunWrapper(wrapper: Wrapper)

  /** `ensureDependencies`: a check that exits with 0 resolves at once; any
      other exit or a spawn error leads to `installDependencies`, which
      resolves exactly when pip exits with 0. */
  function EnsureDependencies(check: ChildEvent, install: ChildEvent): (r: (seq<Spawn>, Result<(), Failure>))
    ensures check == Close(Some(0)) ==> r.0 == [DependencyCheck] && r.1.Ok?
    ensures check != Close(Some(0)) ==> r.0 == [DependencyCheck, PipInstall]
    ensures check != Close(Some(0)) ==> (r.1.Ok? <==> install == Close(Some(0)))
  {
    if check == Close(Some(0)) then ([DependencyCheck], Ok(()))
    else ([DependencyCheck, PipInstall], Settle(install))
  }

  // ---------------------------------------------------------------------
  // The dependency check child

  /** Lines joined, each ended by a line feed. */
  function Lines(ls: seq<string>): (s: string)
    ensures (forall i :: 0 <= i < |ls| ==> '"' !in ls[i]) ==> '"' !in s
  {
    if |ls| == 0 then "" else ls[0] + "\n" + Lines(ls[1..])
  }

  /** The Python program the dependency check means to run, in its two
      blocks: it exits 1 when `codecarbon` or `requests` does not import. */
  const CheckTry: seq<string> :=
    ["", "try:", "    import codecarbon", "    import requests", "    print('\U{2705} All dependencies available')"]
  const CheckExcept: seq<string> :=
    ["except ImportError as e:", "    print(f'\U{274C} Missing: {e}')", "    exit(1)"]
  const CheckScript: string := Lines(CheckTry) + Lines(CheckExcept)

  /** Neither block holds a double quote. */
  lemma CheckScriptUnquoted()
    ensures Unquoted(CheckScript)
  {
    CheckTryUnquoted();
    CheckExceptUnquoted();
  }

  lemma CheckTryUnquoted()
    ensures forall i :: 0 <= i < |CheckTry| ==> '"' !in CheckTry[i]
  {
  }

  lemma CheckExceptUnquoted()
    ensures forall i :: 0 <= i < |CheckExcept| ==> '"' !in CheckExcept[i]
  {
  }

  /** `checkCommand` as written: the script already wrapped in a shell
      command line of its own. */
  const CheckCommand: string := "python -c \"" + CheckScript + "\""

  /** The exit status of `python -c code` for the two programs the check
      can hand Python: the check script exits 0 exactly when both packages
      are installed; the bare name `python` is unbound in a fresh
      interpreter, so it raises `NameError` and exits 1. */
  function PythonCheckExit(code: string, installed: bool): int
    requires code == CheckScript || code == "python"
  {
    if code == CheckScript && installed then 0 else 1
  }

  /** A script without double quotes, wrapped as `python -c "…"` and
      passed as the argument of `python -c` through the shell, reaches
      Python as the program `python`; the script is left as a further
      argument. */
  lemma NestedCommandWords(script: string)
    requires Unquoted(script)
    ensures Argv("python", ["-c", "python -c \"" + script + "\""], true) == ["python", "-c", "python", "-c", script]
  {
    var quoted := "\"" + script + "\"";
    var command := "python -c \"" + script + "\"";
    var parts := ["python", "-c", command];
    assert parts[1..] == ["-c", command] && parts[1..][1..] == [command];
    assert JoinWith([command], ' ') == command;
    assert JoinWith(["-c", command], ' ') == "-c" + " " + command;
    assert "python -c \"" == "python" + " " + ("-c" + " " + "\"");
    assert command == "python" + " " + ("-c" + " " + quoted);
    BareWordThenSpace("python", "-c" + " " + ("python" + " " + ("-c" + " " + quoted)));
    BareWordThenSpace("-c", "python" + " " + ("-c" + " " + quoted));
    BareWordThenSpace("python", "-c" + " " + quoted);
    BareWordThenSpace("-c", quoted);
    QuotedWord(script);
  }

  /** How the check child ends as `ensureDependencies` spawns it: `python`
      with `-c` and `checkCommand`, through the shell. It exits 1 whether
      or not the packages are installed. */
  function CheckAsWritten(installed: bool): (e: ChildEvent)
    ensures e == Close(Some(1))
  {
    CheckScriptUnquoted();
    NestedCommandWords(CheckScript);
    var argv := Argv("python", ["-c", CheckCommand], true);
    Close(Some(PythonCheckExit(argv[2], installed)))
  }

  /** The check spawned as intended, `python -c` with the script itself
      and no shell: it exits 0 exactly when the packages are installed. */
  function CheckCorrected(installed: bool): (e: ChildEvent)
    ensures e == Close(Some(0)) <==> installed
    ensures !installed ==> e == Close(Some(1))
  {
    var argv := Argv("python", ["-c", CheckScript], false);
    Close(Some(PythonCheckExit(argv[2], installed)))
  }

  /** As written, auto-install runs pip on every start, even with both
      packages installed, and a pip failure then fails the start. */
  lemma CheckAsWrittenAlwaysInstalls(script: string, options: StartOptions, installed: bool,
                                     install: ChildEvent, run: ChildEvent)
    ensures EnsureDependencies(CheckAsWritten(installed), install).0 == [DependencyCheck, PipInstall]
    ensures AutoInstall(options) ==>
              PipInstall in StartSeamless(script, options, CheckAsWritten(installed), install, run).spawned
    ensures AutoInstall(options) && install != Close(Some(0)) ==>
              StartSeamless(script, options, CheckAsWritten(installed), install, run).result.Err?
  {
  }

  /** With the corrected check, installed packages skip pip and missing
      ones lead to it. */
  lemma CheckCorrectedSkipsPip(install: ChildEvent)
    ensures EnsureDependencies(CheckCorrected(true), install) == ([DependencyCheck], Ok(()))
    ensures EnsureDependencies(CheckCorrected(false), install).0 == [DependencyCheck, PipInstall]
  {
  }

  datatype StartError = DependenciesFailed(failure: Failure) | TrainingFailed(failure: Failure)

  datatype Started = Started(spawned: seq<Spawn>, result: Result<(), StartError>)

  /** `startSeamless(script, options)`; `check`, `install` and `run` say how
      the dependency check, pip and the wrapper end when spawned. */
  function StartSeamless(script: string, options: StartOptions,
                         check: ChildEvent, install: ChildEvent, run: ChildEvent): (r: Started)
    // Without auto-install the wrapper is the only child.
    ensures !AutoInstall(options) ==> r.spawned == [RunWrapper(CreateSeamlessWrapper(script, ResolveMetadata(options)))]
    // With it, the dependency check always comes first.
    ensures AutoInstall(options) ==> |r.spawned| >= 1 && r.spawned[0] == DependencyCheck
    // pip is spawned only when the check did not exit with 0.
    ensures PipInstall in r.spawned <==> AutoInstall(options) && check != Close(Some(0))
    // The wrapper runs unless the install failed, and it is the last child.
    ensures (exists w :: RunWrapper(w) in r.spawned) <==>
              !AutoInstall(options) || check == Close(Some(0)) || install == Close(Some(0))
    // Success needs the dependencies in place and the wrapper to exit with 0.
    ensures r.result.Ok? <==>
              (!AutoInstall(options) || check == Close(Some(0)) || install == Close(Some(0)))
              && run == Close(Some(0))
    // The wrapper run is the one built from the script and the metadata.
    ensures forall w :: RunWrapper(w) in r.spawned ==> w == CreateSeamlessWrapper(script, ResolveMetadata(options))
  {
    StartWith(CreateSeamlessWrapper(script, ResolveMetadata(options)), options, check, install, run)
  }

  /** The start flow once the wrapper is built. */
  function StartWith(wrapper: Wrapper, options: StartOptions,
                     check: ChildEvent, install: ChildEvent, run: ChildEvent): Started
  {
    var (before, ready) :=
      if AutoInstall(options) then EnsureDependencies(check, install) else ([], Ok(()));
    if ready.Err? then Started(before, Err(DependenciesFailed(ready.error)))
    else
      var settled := Settle(run);
      Started(before + [RunWrapper(wrapper)],
              if settled.Ok? then Ok(()) else Err(TrainingFailed(settled.error)))
  }

  /** `startSeamless` with the corrected wrapper: the same children and the
      same outcome, and the wrapper it runs carries exactly the script. */
  function StartSeamlessCorrected(script: string, options: StartOptions,
                                  check: ChildEvent, install: ChildEvent, run: ChildEvent): (r: Started)
    ensures r.result == StartSeamless(script, options, check, install, run).result
    ensures |r.spawned| == |StartSeamless(script, options, check, install, run).spawned|
    ensures forall w :: RunWrapper(w) in r.spawned ==>
              w.metadata == ResolveMetadata(options)
              && forall tail :: ReadQuoted(w.scriptLiteral + "'" + tail) == Some((script, tail))
  {
    StartWith(CorrectedSeamlessWrapper(script, ResolveMetadata(options)), options, check, install, run)
  }
}
