/** `debug-copy-templates.js`: copies a fixed list of templates from the
    `templates` directory next to the script into a sibling project
    directory, reporting each file as copied or missing. */
module DebugCopy {
  import opened Wrappers
  import opened Text
  import opened Paths
  import opened FileSystem
  import opened TemplateCopy

  /** The project used when no argument is given. */
  const DefaultTarget := "test13"

  /** `process.argv[2] || "test13"`. */
  function TargetProject(arg: Option<string>): (r: string)
    ensures r != ""
    ensures arg.Some? && arg.value != "" ==> r == arg.value
    ensures arg.None? || arg.value == "" ==> r == DefaultTarget
  {
    OrElse(arg, DefaultTarget)
  }

  /** The files the script copies, in order. */
  const DebugManifest: seq<Entry> := [
    Entry("backend_main.py", ["backend", "main.py"]),
    Entry("backend_core_database_database.py", ["backend", "core", "database", "database.py"]),
    Entry("backend_api_routes_auth.py", ["backend", "api", "routes", "auth.py"]),
    Entry("backend_api_routes_metrics.py", ["backend", "api", "routes", "metrics.py"]),
    Entry("backend_core_database_init.py", ["backend", "core", "database", "__init__.py"]),
    Entry("backend_core_init.py", ["backend", "core", "__init__.py"]),
    Entry("backend_api_init.py", ["backend", "api", "__init__.py"]),
    Entry("backend_api_models_init.py", ["backend", "api", "models", "__init__.py"]),
    Entry("backend_backend_init.py", ["backend", "__init__.py"]),
    Entry("backend_core_config.py", ["backend", "core", "config.py"]),
    Entry("frontend_package.json", ["frontend", "package.json"]),
    Entry("frontend_tailwind.config.js", ["frontend", "tailwind.config.js"]),
    Entry("frontend_app_page.tsx", ["frontend", "src", "app", "page.tsx"]),
    Entry("frontend_contexts_auth_context.tsx", ["frontend", "src", "contexts", "auth-context.tsx"]),
    Entry("frontend_components_mode_toggle.tsx", ["frontend", "src", "components", "mode-toggle.tsx"]),
    Entry("frontend_components_theme_provider.tsx", ["frontend", "src", "components", "theme-provider.tsx"]),
    Entry("frontend_app_layout.tsx", ["frontend", "src", "app", "layout.tsx"])]

  lemma DebugManifestValid()
    ensures ValidEntries(DebugManifest)
  {
    DebugValidFrom0();
    DebugValidFrom4();
    DebugValidFrom8();
    DebugValidFrom12();
    DebugValidFrom16();
  }

  /** Four entries at a time. */
  lemma DebugValidFrom0()
    ensures ValidRange(DebugManifest, 0, 4)
  {
  }

  lemma DebugValidFrom4()
    ensures ValidRange(DebugManifest, 4, 8)
  {
  }

  lemma DebugValidFrom8()
    ensures ValidRange(DebugManifest, 8, 12)
  {
  }

  lemma DebugValidFrom12()
    ensures ValidRange(DebugManifest, 12, 16)
  {
  }

  lemma DebugValidFrom16()
    ensures ValidRange(DebugManifest, 16, 17)
  {
  }

  lemma DebugManifestDistinct()
    ensures DistinctDests(DebugManifest)
  {
    var es := DebugManifest;
    forall i, j | 0 <= i < j < |es| ensures es[i].dest != es[j].dest {
      assert ApartAtEnd(es[i].dest, es[j].dest);
    }
  }

  /** `path.join(__dirname, "templates")`. */
  function TemplateDir(scriptDir: Path): (r: Path)
    requires Normal(scriptDir)
    ensures Normal(r)
  {
    JoinSegs(scriptDir, ["templates"])
  }

  /** `path.join(__dirname, "..", TARGET_PROJECT)`. */
  function TargetDir(scriptDir: Path, target: string): (r: Path)
    requires Normal(scriptDir)
    ensures Normal(r) && r.absolute == scriptDir.absolute
  {
    Join(scriptDir, ["..", target])
  }

  /** One line of the script's report. */
  datatype Outcome = Copied(src: string, dest: seq<string>) | Missing(src: string)

  /** The copy loop together with the report it prints. */
  function CopyAndReport<C>(fs: FS<C>, templateDir: Path, targetDir: Path, es: seq<Entry>): (r: (FS<C>, seq<Outcome>))
    requires Normal(templateDir) && Normal(targetDir)
    ensures r.0 == CopyEntries(fs, templateDir, targetDir, es)
    ensures |r.1| == |es|
    decreases |es|
  {
    if |es| == 0 then (fs, [])
    else
      var src := SrcPath(templateDir, es[0]);
      if Exists(fs, src) then
        var rest := CopyAndReport(Copy(fs, src, DestPath(targetDir, es[0])), templateDir, targetDir, es[1..]);
        (rest.0, [Copied(es[0].src, es[0].dest)] + rest.1)
      else
        var rest := CopyAndReport(fs, templateDir, targetDir, es[1..]);
        (rest.0, [Missing(es[0].src)] + rest.1)
  }

  datatype UsageError = UsageError

  /** The whole script: the usage check, then the loop. */
  function DebugCopyTemplates<C>(fs: FS<C>, scriptDir: Path, arg: Option<string>): (r: Result<(FS<C>, seq<Outcome>), UsageError>)
    requires Normal(scriptDir)
  {
    var target := TargetProject(arg);
    if target == "" then Err(UsageError)
    else Ok(CopyAndReport(fs, TemplateDir(scriptDir), TargetDir(scriptDir, target), DebugManifest))
  }

  /** The usage error cannot happen: the target always falls back to a
      non-empty default. */
  lemma UsageUnreachable<C>(fs: FS<C>, scriptDir: Path, arg: Option<string>)
    requires Normal(scriptDir)
    ensures DebugCopyTemplates(fs, scriptDir, arg).Ok?
  {
  }

  /** The report line an entry gets when its source's existence is known. */
  function Expected(exists_: bool, e: Entry): Outcome {
    if exists_ then Copied(e.src, e.dest) else Missing(e.src)
  }

  /** With the template and target directories apart, each entry is
      reported copied exactly when its template existed before the loop. */
  lemma {:induction false} ReportMatchesSources<C>(fs: FS<C>, templateDir: Path, targetDir: Path, es: seq<Entry>)
    requires Normal(templateDir) && Normal(targetDir) && ValidEntries(es)
    requires !IsPrefix(targetDir, templateDir) && !IsPrefix(templateDir, targetDir)
    ensures var r := CopyAndReport(fs, templateDir, targetDir, es);
            forall i :: 0 <= i < |es| ==> r.1[i] == Expected(Exists(fs, SrcPath(templateDir, es[i])), es[i])
    decreases |es|
  {
    if |es| > 0 {
      var src := SrcPath(templateDir, es[0]);
      var next := if Exists(fs, src) then Copy(fs, src, DestPath(targetDir, es[0])) else fs;
      ReportMatchesSources(next, templateDir, targetDir, es[1..]);
      assert next == CopyEntries(fs, templateDir, targetDir, [es[0]]);
      forall j | 1 <= j < |es|
        ensures Exists(next, SrcPath(templateDir, es[j])) <==> Exists(fs, SrcPath(templateDir, es[j]))
      {
        SourceUnaffected(fs, templateDir, targetDir, [es[0]], es[j].src);
      }
      assert forall j :: 1 <= j < |es| ==> es[1..][j - 1] == es[j];
    }
  }

  /** For a script directory `/…/repo` and a plain target name, the target
      is the sibling `/…/<target>`. */
  lemma SiblingTarget(scriptDir: Path, target: string)
    requires Normal(scriptDir) && scriptDir.absolute && |scriptDir.segs| >= 1
    requires PlainSegment(target) && '/' !in target
    ensures TargetDir(scriptDir, target) == Path(true, scriptDir.segs[..|scriptDir.segs| - 1] + [target])
  {
    JoinLiteral(scriptDir, ["..", target]);
    assert JoinSegs(scriptDir, ["..", target]) == JoinSegs(Append(scriptDir, ".."), [target]);
    assert JoinSegs(Append(scriptDir, ".."), [target]) == Append(Append(scriptDir, ".."), target);
  }

  /** The sibling target and the script's `templates` directory are apart
      unless the target has the repository's own name. */
  lemma SiblingApart(scriptDir: Path, target: string)
    requires Normal(scriptDir) && scriptDir.absolute && |scriptDir.segs| >= 1
    requires PlainSegment(target) && '/' !in target
    requires target != scriptDir.segs[|scriptDir.segs| - 1]
    ensures !IsPrefix(TargetDir(scriptDir, target), TemplateDir(scriptDir))
    ensures !IsPrefix(TemplateDir(scriptDir), TargetDir(scriptDir, target))
  {
    SiblingTarget(scriptDir, target);
    JoinPlain(scriptDir, ["templates"]);
    var n := |scriptDir.segs|;
    var t := scriptDir.segs[..n - 1] + [target];
    assert t[n - 1] != (scriptDir.segs + ["templates"])[n - 1];
  }

  /** Each report line says whether the entry's template existed. */
  ghost predicate Reports<C>(before: FS<C>, templateDir: Path, report: seq<Outcome>, es: seq<Entry>)
    requires Normal(templateDir)
  {
    |report| == |es| &&
    forall i :: 0 <= i < |es| ==> report[i] == Expected(Exists(before, SrcPath(templateDir, es[i])), es[i])
  }

  /** Every existing template file has been copied to its destination. */
  ghost predicate Delivered<C>(before: map<Path, C>, after: map<Path, C>, templateDir: Path, targetDir: Path, es: seq<Entry>)
    requires Normal(templateDir) && Normal(targetDir)
  {
    forall i :: 0 <= i < |es| ==>
      var src := SrcPath(templateDir, es[i]);
      var dest := DestPath(targetDir, es[i]);
      src in before ==> dest in after && after[dest] == before[src]
  }

  /** The loop with directories apart: each entry is reported copied
      exactly when its template exists, and then its destination holds the
      template's content. */
  lemma CopyAndReportApart<C>(fs: FS<C>, templateDir: Path, targetDir: Path, es: seq<Entry>)
    requires Normal(templateDir) && Normal(targetDir) && ValidEntries(es) && DistinctDests(es)
    requires !IsPrefix(targetDir, templateDir) && !IsPrefix(templateDir, targetDir)
    ensures var r := CopyAndReport(fs, templateDir, targetDir, es);
            Reports(fs, templateDir, r.1, es) && Delivered(fs.files, r.0.files, templateDir, targetDir, es)
  {
    ReportMatchesSources(fs, templateDir, targetDir, es);
    CopyEntriesFiles(fs, templateDir, targetDir, es);
  }

  /** The script run from `/…/repo` with a plain target name other than
      `repo`: no usage error; each file is reported copied exactly when its
      template exists, and then its destination holds the template's
      content. */
  lemma DebugCopyReports<C>(fs: FS<C>, scriptDir: Path, arg: Option<string>)
    requires Normal(scriptDir) && scriptDir.absolute && |scriptDir.segs| >= 1
    requires var target := TargetProject(arg);
             PlainSegment(target) && '/' !in target && target != scriptDir.segs[|scriptDir.segs| - 1]
    ensures var r := DebugCopyTemplates(fs, scriptDir, arg);
            var templateDir := TemplateDir(scriptDir);
            var targetDir := TargetDir(scriptDir, TargetProject(arg));
            && r.Ok?
            && Reports(fs, templateDir, r.value.1, DebugManifest)
            && Delivered(fs.files, r.value.0.files, templateDir, targetDir, DebugManifest)
  {
    var target := TargetProject(arg);
    SiblingApart(scriptDir, target);
    DebugManifestValid();
    DebugManifestDistinct();
    CopyAndReportApart(fs, TemplateDir(scriptDir), TargetDir(scriptDir, target), DebugManifest);
  }
}
