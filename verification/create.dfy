/** `create <project-name>`: refuse an existing directory, build the project
    configuration, create the directory skeleton, locate the templates
    directory, copy the template manifest, write the generated files,
    install dependencies and prepare the database directory.

    Relative paths inside the project are written segment by segment:
    `["backend", "api"]` stands for `backend/api`. */
module Create {
  import opened Wrappers
  import opened Text
  import opened Paths
  import opened FileSystem
  import opened TemplateCopy

  // ---------------------------------------------------------------------
  // Project configuration

  datatype CreateOptions = CreateOptions(template: string, yes: bool)

  datatype Database = Sqlite | Postgres | Mysql

  /** What the interactive prompts return (the port prompt may give NaN). */
  datatype Answers = Answers(description: string, database: Database, port: JsInt, features: seq<string>)

  datatype ProjectConfig = ProjectConfig(
    name: string,
    description: string,
    database: Database,
    port: JsInt,
    template: string,
    features: seq<string>)

  /** The features `--yes` selects. */
  const YesFeatures: seq<string> := [
    "energy-tracking", "carbon-footprint", "water-usage", "insights",
    "authentication", "user-management", "dark-mode", "real-time-charts"]

  /** Every feature the checkbox prompt offers; all are pre-checked. */
  const PromptFeatures: seq<string> := YesFeatures + ["teams", "api"]

  function DefaultDescription(name: string): string {
    "AI Sustainability Dashboard for " + name
  }

  /** The answers a user gets by accepting every prompt's default. */
  function PromptDefaults(name: string): Answers {
    Answers(DefaultDescription(name), Sqlite, Int(3000), PromptFeatures)
  }

  /** `getProjectConfig`: with `--yes` the fixed defaults, otherwise the
      prompt answers; the name and template option are carried through. */
  function GetProjectConfig(name: string, options: CreateOptions, answers: Answers): (c: ProjectConfig)
    ensures c.name == name && c.template == options.template
    ensures options.yes ==>
              && c.description == "AI Sustainability Dashboard for " + name
              && c.database == Sqlite && c.port == Int(3000)
              && |c.features| == 8 && c.features == YesFeatures
    ensures !options.yes ==>
              c.description == answers.description && c.database == answers.database
              && c.port == answers.port && c.features == answers.features
  {
    if options.yes then ProjectConfig(name, DefaultDescription(name), Sqlite, Int(3000), options.template, YesFeatures)
    else ProjectConfig(name, answers.description, answers.database, answers.port, options.template, answers.features)
  }

  /** With `--yes` the prompts play no part, and the result differs from
      accepting every prompt default only in the two extra features the
      prompt pre-checks. */
  lemma YesIgnoresPrompts(name: string, template: string, answers: Answers)
    ensures GetProjectConfig(name, CreateOptions(template, true), answers)
         == GetProjectConfig(name, CreateOptions(template, false), PromptDefaults(name)).(features := YesFeatures)
    ensures PromptFeatures == YesFeatures + ["teams", "api"]
  {
  }

  // ---------------------------------------------------------------------
  // File contents

  /** Content of a file: text copied from a template, or one of the
      generated files, identified by what it is built from. */
  datatype Blob =
    | TemplateText(text: string)
    | PackageJson(name: string, description: string)
    | NextConfig
    | PostcssConfig
    | TsConfig
    | Readme(name: string, description: string, features: seq<string>, database: Database)

  // ---------------------------------------------------------------------
  // Directory skeleton

  const Skeleton: seq<seq<string>> := [
    ["backend"], ["backend", "api"], ["backend", "api", "routes"], ["backend", "api", "models"],
    ["backend", "api", "schemas"], ["backend", "api", "services"], ["backend", "core"],
    ["backend", "core", "database"], ["backend", "core", "config"], ["backend", "utils"],
    ["frontend"], ["frontend", "src"], ["frontend", "src", "app"], ["frontend", "src", "components"],
    ["frontend", "src", "components", "ui"], ["frontend", "src", "components", "auth"],
    ["frontend", "src", "contexts"], ["frontend", "src", "lib"], ["frontend", "src", "pages"],
    ["frontend", "src", "utils"], ["frontend", "public"], ["data"], ["docker"], ["scripts"], ["tests"]]

  predicate AllPlain(segs: seq<string>) {
    forall i :: 0 <= i < |segs| ==> PlainSegment(segs[i])
  }

  lemma SkeletonPlain()
    ensures forall k :: 0 <= k < |Skeleton| ==> |Skeleton[k]| >= 1 && AllPlain(Skeleton[k])
  {
  }

  /** No generated file is a skeleton directory or one of its ancestors. */
  lemma SkeletonAvoidsGenerated()
    ensures forall k, g :: 0 <= k < |Skeleton| && 0 <= g < |GeneratedFiles| ==> !(GeneratedFiles[g] <= Skeleton[k])
  {
    forall k, g | 0 <= k < |Skeleton| && 0 <= g < |GeneratedFiles| ensures !(GeneratedFiles[g] <= Skeleton[k]) {
      PartsAt(GeneratedFiles[g], Skeleton[k], if GeneratedFiles[g][0] != Skeleton[k][0] then 0 else 1);
    }
  }

  /** A list that is longer than another, or differs from it at a position
      both have, does not begin it. */
  lemma PartsAt<T>(a: seq<T>, b: seq<T>, j: nat)
    requires |b| < |a| || (j < |a| && j < |b| && a[j] != b[j])
    ensures !(a <= b)
  {
  }

  /** `ensureDir` of every skeleton directory, in order, as the loop does it. */
  function EnsureDirsInOrder<C>(fs: FS<C>, root: Path, dirs: seq<seq<string>>): (r: FS<C>)
    requires Normal(root)
    ensures r.files == fs.files
    ensures fs.dirs <= r.dirs
    decreases |dirs|
  {
    if |dirs| == 0 then fs
    else EnsureDirsInOrder(EnsureDir(fs, JoinSegs(root, dirs[0])), root, dirs[1..])
  }

  /** Every listed directory under `root` together with its ancestors. */
  function DirsCreated(root: Path, dirs: seq<seq<string>>): (r: set<Path>)
    requires Normal(root)
  {
    set k, d | 0 <= k < |dirs| && d in AncestorsAndSelf(JoinSegs(root, dirs[k])) :: d
  }

  /** The effect of the skeleton loop in one step: the listed directories and
      their ancestors are added and nothing else changes. */
  function MakeDirs<C>(fs: FS<C>, root: Path, dirs: seq<seq<string>>): (r: FS<C>)
    requires Normal(root)
    ensures r.files == fs.files && fs.dirs <= r.dirs
    ensures forall k :: 0 <= k < |dirs| ==> JoinSegs(root, dirs[k]) in r.dirs
  {
    var r := FS(fs.files, fs.dirs + DirsCreated(root, dirs));
    assert forall k :: 0 <= k < |dirs| ==> JoinSegs(root, dirs[k]) in r.dirs by {
      forall k | 0 <= k < |dirs| ensures JoinSegs(root, dirs[k]) in r.dirs {
        assert JoinSegs(root, dirs[k]) in AncestorsAndSelf(JoinSegs(root, dirs[k]));
      }
    }
    r
  }

  /** The loop and the one-step effect agree. */
  lemma {:induction false} EnsureDirsInOrderIsMakeDirs<C>(fs: FS<C>, root: Path, dirs: seq<seq<string>>)
    requires Normal(root)
    ensures EnsureDirsInOrder(fs, root, dirs) == MakeDirs(fs, root, dirs)
    decreases |dirs|
  {
    if |dirs| > 0 {
      var next := EnsureDir(fs, JoinSegs(root, dirs[0]));
      EnsureDirsInOrderIsMakeDirs(next, root, dirs[1..]);
      DirsCreatedFirst(root, dirs);
    }
  }

  /** The first directory's part of the loop, and the rest. */
  lemma DirsCreatedFirst(root: Path, dirs: seq<seq<string>>)
    requires Normal(root) && |dirs| > 0
    ensures DirsCreated(root, dirs) == AncestorsAndSelf(JoinSegs(root, dirs[0])) + DirsCreated(root, dirs[1..])
  {
    forall d | d in DirsCreated(root, dirs)
      ensures d in AncestorsAndSelf(JoinSegs(root, dirs[0])) + DirsCreated(root, dirs[1..])
    {
      var k :| 0 <= k < |dirs| && d in AncestorsAndSelf(JoinSegs(root, dirs[k]));
      if k > 0 {
        assert dirs[1..][k - 1] == dirs[k];
      }
    }
    forall d | d in DirsCreated(root, dirs[1..]) ensures d in DirsCreated(root, dirs) {
      var k :| 0 <= k < |dirs[1..]| && d in AncestorsAndSelf(JoinSegs(root, dirs[1..][k]));
      assert d in AncestorsAndSelf(JoinSegs(root, dirs[k + 1]));
    }
  }

  // ---------------------------------------------------------------------
  // The template manifest, in the order the copy loops run

  const BackendTemplates: seq<Entry> := [
    Entry("backend_main.py", ["backend", "main.py"]),
    Entry("backend_core_config.py", ["backend", "core", "config.py"]),
    Entry("backend_core_database_database.py", ["backend", "core", "database", "database.py"]),
    Entry("backend_core_database_models.py", ["backend", "core", "database", "models.py"]),
    Entry("backend_core_security.py", ["backend", "core", "security.py"]),
    Entry("backend_api_models_user.py", ["backend", "api", "models", "user.py"]),
    Entry("backend_api_models_metric.py", ["backend", "api", "models", "metric.py"]),
    Entry("backend_api_routes_init.py", ["backend", "api", "routes", "__init__.py"]),
    Entry("backend_api_routes_auth.py", ["backend", "api", "routes", "auth.py"]),
    Entry("backend_api_routes_metrics.py", ["backend", "api", "routes", "metrics.py"]),
    Entry("backend_api_schemas_init.py", ["backend", "api", "schemas", "__init__.py"]),
    Entry("backend_api_schemas_user.py", ["backend", "api", "schemas", "user.py"]),
    Entry("backend_api_schemas_metrics.py", ["backend", "api", "schemas", "metrics.py"]),
    Entry("backend_init_users.py", ["backend", "init_users.py"]),
    Entry("requirements.txt", ["requirements.txt"])]

  /** The frontend loop's list: the application files, then the UI
      components. */
  const FrontendTemplates: seq<Entry> := FrontendAppTemplates + FrontendUiTemplates

  const FrontendAppTemplates: seq<Entry> := [
    Entry("frontend_package.json", ["frontend", "package.json"]),
    Entry("frontend_tailwind.config.js", ["frontend", "tailwind.config.js"]),
    Entry("frontend_components.json", ["frontend", "components.json"]),
    Entry("frontend_globals.css", ["frontend", "src", "app", "globals.css"]),
    Entry("frontend_lib_utils.ts", ["frontend", "src", "lib", "utils.ts"]),
    Entry("frontend_app_page.tsx", ["frontend", "src", "app", "page.tsx"]),
    Entry("frontend_app_layout.tsx", ["frontend", "src", "app", "layout.tsx"]),
    Entry("frontend_components_theme_provider.tsx", ["frontend", "src", "components", "theme-provider.tsx"]),
    Entry("frontend_components_mode_toggle.tsx", ["frontend", "src", "components", "mode-toggle.tsx"]),
    Entry("frontend_components_auth_login_form.tsx", ["frontend", "src", "components", "auth", "login-form.tsx"]),
    Entry("frontend_components_auth_protected_route.tsx", ["frontend", "src", "components", "auth", "protected-route.tsx"]),
    Entry("frontend_components_auth_password_setup.tsx", ["frontend", "src", "components", "auth", "password-setup.tsx"]),
    Entry("frontend_components_auth_user_management.tsx", ["frontend", "src", "components", "auth", "user-management.tsx"]),
    Entry("frontend_contexts_auth_context.tsx", ["frontend", "src", "contexts", "auth-context.tsx"]),
    Entry("frontend_config_auth.ts", ["frontend", "src", "config", "auth.ts"])]

  const FrontendUiTemplates: seq<Entry> := [
    Entry("frontend_components_ui_button.tsx", ["frontend", "src", "components", "ui", "button.tsx"]),
    Entry("frontend_components_ui_card.tsx", ["frontend", "src", "components", "ui", "card.tsx"]),
    Entry("frontend_components_ui_input.tsx", ["frontend", "src", "components", "ui", "input.tsx"]),
    Entry("frontend_components_ui_label.tsx", ["frontend", "src", "components", "ui", "label.tsx"]),
    Entry("frontend_components_ui_alert.tsx", ["frontend", "src", "components", "ui", "alert.tsx"]),
    Entry("frontend_components_ui_badge.tsx", ["frontend", "src", "components", "ui", "badge.tsx"]),
    Entry("frontend_components_ui_modal.tsx", ["frontend", "src", "components", "ui", "modal.tsx"]),
    Entry("frontend_components_ui_select.tsx", ["frontend", "src", "components", "ui", "select.tsx"])]

  const EnvTemplates: seq<Entry> := [Entry("backend_env_example", [".env.example"])]

  const DockerTemplates: seq<Entry> := [
    Entry("docker_compose_yml", ["docker-compose.yml"]),
    Entry("docker_backend_dockerfile", ["docker", "backend.Dockerfile"]),
    Entry("docker_frontend_dockerfile", ["docker", "frontend.Dockerfile"])]

  const OtherTemplates: seq<Entry> := [Entry("LICENSE", ["LICENSE"])]

  /** The five copy loops run backend, frontend, env, docker, other. */
  const Manifest: seq<Entry> := BackendTemplates + FrontendTemplates + EnvTemplates + DockerTemplates + OtherTemplates

  /** The files `createAdditionalFiles` writes, in order. */
  const GeneratedFiles: seq<seq<string>> := [
    ["package.json"], ["frontend", "next.config.js"], ["frontend", "postcss.config.js"],
    ["frontend", "tsconfig.json"], ["README.md"]]

  lemma BackendTemplatesWellFormed()
    ensures ValidEntries(BackendTemplates) && DistinctDests(BackendTemplates)
    ensures forall i :: 0 <= i < |BackendTemplates| ==> BackendTemplates[i].dest[0] != "frontend"
  {
    BackendTemplatesValid();
    BackendTemplatesDistinct();
  }

  lemma BackendTemplatesValid()
    ensures ValidEntries(BackendTemplates)
  {
    BackendValidFrom0();
    BackendValidFrom4();
    BackendValidFrom8();
    BackendValidFrom12();
  }

  /** Four entries at a time. */
  lemma BackendValidFrom0()
    ensures ValidRange(BackendTemplates, 0, 4)
  {
  }

  lemma BackendValidFrom4()
    ensures ValidRange(BackendTemplates, 4, 8)
  {
  }

  lemma BackendValidFrom8()
    ensures ValidRange(BackendTemplates, 8, 12)
  {
  }

  lemma BackendValidFrom12()
    ensures ValidRange(BackendTemplates, 12, 15)
  {
  }

  lemma BackendTemplatesDistinct()
    ensures DistinctDests(BackendTemplates)
  {
    var es := BackendTemplates;
    forall i, j | 0 <= i < j < |es| ensures es[i].dest != es[j].dest {
      assert ApartAtEnd(es[i].dest, es[j].dest);
    }
  }

  lemma FrontendTemplatesWellFormed()
    ensures ValidEntries(FrontendTemplates) && DistinctDests(FrontendTemplates)
    ensures forall i :: 0 <= i < |FrontendTemplates| ==> FrontendTemplates[i].dest[0] == "frontend"
  {
    FrontendAppValid();
    FrontendAppDistinct();
    FrontendUiWellFormed();
    FrontendAppNotUi();
    DistinctConcat(FrontendAppTemplates, FrontendUiTemplates);
    forall i | 0 <= i < |FrontendTemplates|
      ensures ValidEntry(FrontendTemplates[i]) && FrontendTemplates[i].dest[0] == "frontend"
    {
      if i >= |FrontendAppTemplates| {
        assert FrontendTemplates[i] == FrontendUiTemplates[i - |FrontendAppTemplates|];
      }
    }
  }

  lemma FrontendAppValid()
    ensures ValidEntries(FrontendAppTemplates)
    ensures forall i :: 0 <= i < |FrontendAppTemplates| ==> FrontendAppTemplates[i].dest[0] == "frontend"
  {
    FrontendAppPlain();
    FrontendAppUnderFrontend();
  }

  lemma FrontendAppPlain()
    ensures ValidEntries(FrontendAppTemplates)
  {
    FrontendAppValidFrom0();
    FrontendAppValidFrom4();
    FrontendAppValidFrom8();
    FrontendAppValidFrom12();
    FrontendAppValidFrom14();
  }

  /** Four entries at a time. */
  lemma FrontendAppValidFrom0()
    ensures ValidRange(FrontendAppTemplates, 0, 4)
  {
  }

  lemma FrontendAppValidFrom4()
    ensures ValidRange(FrontendAppTemplates, 4, 8)
  {
  }

  lemma FrontendAppValidFrom8()
    ensures ValidRange(FrontendAppTemplates, 8, 12)
  {
  }

  lemma FrontendAppValidFrom12()
    ensures ValidRange(FrontendAppTemplates, 12, 14)
  {
  }

  lemma FrontendAppValidFrom14()
    ensures ValidRange(FrontendAppTemplates, 14, 15)
  {
  }

  lemma FrontendAppUnderFrontend()
    ensures forall i :: 0 <= i < |FrontendAppTemplates| ==> FrontendAppTemplates[i].dest[0] == "frontend"
  {
  }

  lemma FrontendAppDistinct()
    ensures DistinctDests(FrontendAppTemplates)
  {
    var es := FrontendAppTemplates;
    forall i, j | 0 <= i < j < |es| ensures es[i].dest != es[j].dest {
      assert ApartAtEnd(es[i].dest, es[j].dest);
    }
  }

  lemma FrontendUiWellFormed()
    ensures ValidEntries(FrontendUiTemplates) && DistinctDests(FrontendUiTemplates)
    ensures forall i :: 0 <= i < |FrontendUiTemplates| ==>
              |FrontendUiTemplates[i].dest| == 5 && FrontendUiTemplates[i].dest[0] == "frontend"
              && FrontendUiTemplates[i].dest[3] == "ui"
  {
    FrontendUiPlain();
    FrontendUiDistinct();
    FrontendUiPlaced();
  }

  lemma FrontendUiPlain()
    ensures ValidEntries(FrontendUiTemplates)
  {
    FrontendUiValidFrom0();
    FrontendUiValidFrom2();
    FrontendUiValidFrom4();
    FrontendUiValidFrom6();
  }

  /** Two entries at a time: the paths are long. */
  lemma FrontendUiValidFrom0()
    ensures ValidRange(FrontendUiTemplates, 0, 2)
  {
  }

  lemma FrontendUiValidFrom2()
    ensures ValidRange(FrontendUiTemplates, 2, 4)
  {
  }

  lemma FrontendUiValidFrom4()
    ensures ValidRange(FrontendUiTemplates, 4, 6)
  {
  }

  lemma FrontendUiValidFrom6()
    ensures ValidRange(FrontendUiTemplates, 6, 8)
  {
  }

  lemma FrontendUiDistinct()
    ensures DistinctDests(FrontendUiTemplates)
  {
  }

  lemma FrontendUiPlaced()
    ensures forall i :: 0 <= i < |FrontendUiTemplates| ==>
              |FrontendUiTemplates[i].dest| == 5 && FrontendUiTemplates[i].dest[0] == "frontend"
              && FrontendUiTemplates[i].dest[3] == "ui"
  {
  }

  lemma FrontendAppNotUi()
    ensures forall i, j :: 0 <= i < |FrontendAppTemplates| && 0 <= j < |FrontendUiTemplates| ==>
              FrontendAppTemplates[i].dest != FrontendUiTemplates[j].dest
  {
    FrontendUiWellFormed();
    assert forall i :: 0 <= i < |FrontendAppTemplates| && |FrontendAppTemplates[i].dest| == 5 ==>
             FrontendAppTemplates[i].dest[3] != "ui";
  }

  lemma RestTemplatesWellFormed()
    ensures var rest := EnvTemplates + DockerTemplates + OtherTemplates;
            && ValidEntries(rest) && DistinctDests(rest)
            && (forall i :: 0 <= i < |rest| ==> rest[i].dest[0] != "frontend")
            && (forall i, j :: 0 <= i < |BackendTemplates| && 0 <= j < |rest| ==> BackendTemplates[i].dest != rest[j].dest)
  {
    RestValid();
    RestDistinct();
    RestOutsideFrontend();
    BackendNotRest();
  }

  lemma RestValid()
    ensures ValidEntries(EnvTemplates + DockerTemplates + OtherTemplates)
  {
  }

  lemma RestDistinct()
    ensures DistinctDests(EnvTemplates + DockerTemplates + OtherTemplates)
  {
    var es := EnvTemplates + DockerTemplates + OtherTemplates;
    forall i, j | 0 <= i < j < |es| ensures es[i].dest != es[j].dest {
      assert ApartAtEnd(es[i].dest, es[j].dest);
    }
  }

  lemma RestOutsideFrontend()
    ensures var rest := EnvTemplates + DockerTemplates + OtherTemplates;
            forall i :: 0 <= i < |rest| ==> rest[i].dest[0] != "frontend"
  {
  }

  lemma BackendNotRest()
    ensures var rest := EnvTemplates + DockerTemplates + OtherTemplates;
            forall i, j :: 0 <= i < |BackendTemplates| && 0 <= j < |rest| ==> BackendTemplates[i].dest != rest[j].dest
  {
    var rest := EnvTemplates + DockerTemplates + OtherTemplates;
    forall i, j | 0 <= i < |BackendTemplates| && 0 <= j < |rest|
      ensures BackendTemplates[i].dest != rest[j].dest
    {
      assert ApartAtEnd(BackendTemplates[i].dest, rest[j].dest);
    }
  }

  /** No entry of `es` has a generated file as its destination or as one
      of the directories on the way to it. */
  predicate AvoidsGenerated(es: seq<Entry>) {
    forall i, g :: 0 <= i < |es| && 0 <= g < |GeneratedFiles| ==> !(GeneratedFiles[g] <= es[i].dest)
  }

  lemma AvoidsGeneratedConcat(a: seq<Entry>, b: seq<Entry>)
    requires AvoidsGenerated(a) && AvoidsGenerated(b)
    ensures AvoidsGenerated(a + b)
  {
    forall i | 0 <= i < |a + b| ensures (a + b)[i] == if i < |a| then a[i] else b[i - |a|] { }
  }

  /** No generated file is the destination of a manifest entry or a
      directory on the way to one, so the generated files never overwrite a
      copied one and the copies never leave a directory where a generated
      file goes. */
  lemma GeneratedNotInManifest()
    ensures forall i, g :: 0 <= i < |Manifest| && 0 <= g < |GeneratedFiles| ==> !(GeneratedFiles[g] <= Manifest[i].dest)
  {
    BackendAvoidsGenerated();
    FrontendAppAvoidsGenerated();
    FrontendUiAvoidsGenerated();
    RestAvoidsGenerated();
    AvoidsGeneratedConcat(FrontendAppTemplates, FrontendUiTemplates);
    AvoidsGeneratedConcat(BackendTemplates, FrontendTemplates);
    AvoidsGeneratedConcat(BackendTemplates + FrontendTemplates, EnvTemplates);
    AvoidsGeneratedConcat(BackendTemplates + FrontendTemplates + EnvTemplates, DockerTemplates);
    AvoidsGeneratedConcat(BackendTemplates + FrontendTemplates + EnvTemplates + DockerTemplates, OtherTemplates);
  }

  lemma BackendAvoidsGenerated()
    ensures AvoidsGenerated(BackendTemplates)
  {
    AvoidsGeneratedByHeads(BackendTemplates);
  }

  lemma FrontendAppAvoidsGenerated()
    ensures AvoidsGenerated(FrontendAppTemplates)
  {
    AvoidsGeneratedByHeads(FrontendAppTemplates);
  }

  lemma FrontendUiAvoidsGenerated()
    ensures AvoidsGenerated(FrontendUiTemplates)
  {
    AvoidsGeneratedByHeads(FrontendUiTemplates);
  }

  lemma RestAvoidsGenerated()
    ensures AvoidsGenerated(EnvTemplates) && AvoidsGenerated(DockerTemplates) && AvoidsGenerated(OtherTemplates)
  {
    AvoidsGeneratedByHeads(EnvTemplates);
    AvoidsGeneratedByHeads(DockerTemplates);
    AvoidsGeneratedByHeads(OtherTemplates);
  }

  /** Entries whose destinations part from every generated file in their
      first segment, or in their second when both start alike, avoid the
      generated files. */
  lemma AvoidsGeneratedByHeads(es: seq<Entry>)
    requires forall i, g :: 0 <= i < |es| && 0 <= g < |GeneratedFiles| ==>
               var d, a := es[i].dest, GeneratedFiles[g];
               |d| >= 1 && (a[0] != d[0] || (|d| >= 2 && |a| >= 2 && a[1] != d[1]) || |d| < |a|)
    ensures AvoidsGenerated(es)
  {
    forall i, g | 0 <= i < |es| && 0 <= g < |GeneratedFiles| ensures !(GeneratedFiles[g] <= es[i].dest) {
      var d, a := es[i].dest, GeneratedFiles[g];
      PartsAt(a, d, if a[0] != d[0] then 0 else 1);
    }
  }

  /** Two lists each without repeated destinations and sharing none make a
      list without repeated destinations. */
  lemma DistinctConcat(a: seq<Entry>, b: seq<Entry>)
    requires DistinctDests(a) && DistinctDests(b)
    requires forall i, j :: 0 <= i < |a| && 0 <= j < |b| ==> a[i].dest != b[j].dest
    ensures DistinctDests(a + b)
  {
    forall i, j | 0 <= i < j < |a + b| ensures (a + b)[i].dest != (a + b)[j].dest {
      if j < |a| {
      } else if i >= |a| {
        assert (a + b)[i] == b[i - |a|] && (a + b)[j] == b[j - |a|];
      } else {
        assert (a + b)[j] == b[j - |a|];
      }
    }
  }

  /** Every manifest entry is well formed and no two share a destination. */
  lemma ManifestWellFormed()
    ensures ValidEntries(Manifest) && DistinctDests(Manifest)
  {
    BackendTemplatesWellFormed();
    FrontendTemplatesWellFormed();
    RestTemplatesWellFormed();
    var rest := EnvTemplates + DockerTemplates + OtherTemplates;
    DistinctConcat(FrontendTemplates, rest);
    DistinctConcat(BackendTemplates, FrontendTemplates + rest);
    assert Manifest == BackendTemplates + (FrontendTemplates + rest);
  }

  // ---------------------------------------------------------------------
  // Locating the templates directory

  /** The normalisation of the tool's own directory as written: every path
      that starts with `/` loses that slash and has its remaining slashes
      turned into backslashes, meant for `/C:/...` URL paths on Windows. */
  function NormalizeCliDirAsWritten(cliDir: string): (r: string)
    ensures |cliDir| > 0 && cliDir[0] == '/' ==>
              && |r| == |cliDir| - 1
              && (forall i :: 0 <= i < |r| ==> r[i] == (if cliDir[i + 1] == '/' then '\\' else cliDir[i + 1]))
              && '/' !in r
    ensures !(|cliDir| > 0 && cliDir[0] == '/') ==> r == cliDir
  {
    if |cliDir| > 0 && cliDir[0] == '/' then ReplaceAll(cliDir[1..], '/', "\\") else cliDir
  }

  /** A URL path naming a Windows drive, `/C:/...`. */
  predicate DrivePath(cliDir: string) {
    |cliDir| >= 3 && cliDir[0] == '/' && cliDir[2] == ':'
  }

  /** The evidently intended normalisation: only a drive path is rewritten;
      a POSIX directory is used as it is. */
  function NormalizeCliDir(cliDir: string): (r: string)
    ensures DrivePath(cliDir) ==> '/' !in r
    ensures !DrivePath(cliDir) ==> r == cliDir
  {
    if DrivePath(cliDir) then NormalizeCliDirAsWritten(cliDir) else cliDir
  }

  /** `..` repeated `n` times. */
  function Ups(n: nat): (r: seq<string>)
    ensures |r| == n && forall i :: 0 <= i < n ==> r[i] == ".."
  {
    seq(n, _ => "..")
  }

  /** `path.join(p, '..', ..., 'templates')` with `ups` parent steps; a
      `path.join` of literal parts free of `/` appends them one by one
      (`Paths.JoinLiteral`). */
  function TemplatesAbove(p: Path, ups: nat): (r: Path)
    requires Normal(p)
    ensures Normal(r) && r.absolute == p.absolute
  {
    JoinSegs(p, Ups(ups) + ["templates"])
  }

  /** The fallback candidates, in the order they are tried, each resolved
      against the working directory the way `fs.pathExists` reads it. */
  function Candidates(tool: Path, cwd: Path): (r: seq<Path>)
    requires Normal(tool) && Normal(cwd) && cwd.absolute
    ensures |r| == 6
    ensures forall i :: 0 <= i < 6 ==> Normal(r[i]) && r[i].absolute
  {
    seq(6, k requires 0 <= k < 6 => Candidate(tool, cwd, k))
  }

  /** Candidate `k`: one, two and three levels above the tool's directory,
      inside it, then one and two levels above the working directory. */
  function Candidate(tool: Path, cwd: Path, k: nat): (r: Path)
    requires Normal(tool) && Normal(cwd) && cwd.absolute && k < 6
    ensures Normal(r) && r.absolute
  {
    if k == 0 then Resolve(TemplatesAbove(tool, 1), cwd)
    else if k == 1 then Resolve(TemplatesAbove(tool, 2), cwd)
    else if k == 2 then Resolve(TemplatesAbove(tool, 3), cwd)
    else if k == 3 then Resolve(TemplatesAbove(tool, 0), cwd)
    else if k == 4 then TemplatesAbove(cwd, 1)
    else TemplatesAbove(cwd, 2)
  }

  /** Index of the first candidate that exists. */
  function FirstExisting<C>(fs: FS<C>, candidates: seq<Path>): (r: Option<nat>)
    ensures r.Some? ==> r.value < |candidates| && Exists(fs, candidates[r.value])
    ensures r.Some? ==> forall j :: 0 <= j < r.value ==> !Exists(fs, candidates[j])
    ensures r.None? <==> forall j :: 0 <= j < |candidates| ==> !Exists(fs, candidates[j])
    decreases |candidates|
  {
    if |candidates| == 0 then None
    else if Exists(fs, candidates[0]) then Some(0)
    else
      match FirstExisting(fs, candidates[1..])
      case None => None
      case Some(k) => Some(k + 1)
  }

  datatype CreateError =
    | AlreadyExists(name: string)
    | MakeDirFailed(error: FsError)
    | TemplatesNotFound
    | WriteFailed(error: FsError)
    | InstallFailed

  /** `cwd/templates` if it exists, otherwise the first existing candidate
      derived from the (already normalised) tool directory. */
  function LocateWith<C>(fs: FS<C>, cwd: Path, normalizedCliDir: string): (r: Result<Path, CreateError>)
    requires Normal(cwd) && cwd.absolute
    ensures Exists(fs, TemplatesAbove(cwd, 0)) ==> r == Ok(TemplatesAbove(cwd, 0))
    ensures !Exists(fs, TemplatesAbove(cwd, 0)) ==>
              var cs := Candidates(Parse(normalizedCliDir), cwd);
              && (r.Ok? <==> exists i :: 0 <= i < 6 && Exists(fs, cs[i]))
              && (r.Ok? ==> exists i :: 0 <= i < 6 && r.value == cs[i] && Exists(fs, cs[i])
                              && forall j :: 0 <= j < i ==> !Exists(fs, cs[j]))
    ensures r.Err? ==> r.error == TemplatesNotFound
    ensures r.Ok? ==> Normal(r.value) && r.value.absolute && Exists(fs, r.value)
  {
    var here := TemplatesAbove(cwd, 0);
    if Exists(fs, here) then Ok(here)
    else
      var cs := Candidates(Parse(normalizedCliDir), cwd);
      match FirstExisting(fs, cs)
      case Some(i) => Ok(cs[i])
      case None => Err(TemplatesNotFound)
  }

  /** The locator with the corrected normalisation, as `CreateProjectCorrected` uses it. */
  function Locate<C>(fs: FS<C>, cwd: Path, cliDir: string): (r: Result<Path, CreateError>)
    requires Normal(cwd) && cwd.absolute
    ensures r.Ok? ==> Normal(r.value) && r.value.absolute && Exists(fs, r.value)
    ensures r.Err? ==> r.error == TemplatesNotFound
  {
    LocateWith(fs, cwd, NormalizeCliDir(cliDir))
  }

  /** The locator as written. */
  function LocateAsWritten<C>(fs: FS<C>, cwd: Path, cliDir: string): (r: Result<Path, CreateError>)
    requires Normal(cwd) && cwd.absolute
    ensures r.Ok? ==> Normal(r.value) && r.value.absolute && Exists(fs, r.value)
    ensures r.Err? ==> r.error == TemplatesNotFound
  {
    LocateWith(fs, cwd, NormalizeCliDirAsWritten(cliDir))
  }

  /** As written, a POSIX tool directory collapses to one relative segment,
      so every candidate lies next to the working directory: the first is
      `cwd/templates` again, the next two repeat the last two, and where the
      tool is installed plays no part. */
  lemma AsWrittenIgnoresToolLocation(cliDir: string, cwd: Path)
    requires Normal(cwd) && cwd.absolute
    requires |cliDir| >= 4 && cliDir[0] == '/'
    ensures var cs := Candidates(Parse(NormalizeCliDirAsWritten(cliDir)), cwd);
            && cs[0] == TemplatesAbove(cwd, 0)
            && cs[1] == cs[4] && cs[2] == cs[5]
            && cs[3] == Path(true, cwd.segs + [NormalizeCliDirAsWritten(cliDir), "templates"])
  {
    var n := NormalizeCliDirAsWritten(cliDir);
    AsWrittenSegment(cliDir);
    ParseSingleSegment(n);
    CollapsedCandidates(n, cwd);
  }

  lemma CollapsedCandidates(n: string, cwd: Path)
    requires Normal(cwd) && cwd.absolute && PlainSegment(n)
    ensures var cs := Candidates(Path(false, [n]), cwd);
            && cs[0] == TemplatesAbove(cwd, 0)
            && cs[1] == cs[4] && cs[2] == cs[5]
            && cs[3] == Path(true, cwd.segs + [n, "templates"])
  {
    CollapsedClimb(n, cwd, 0);
    CollapsedClimb(n, cwd, 1);
    CollapsedClimb(n, cwd, 2);
    InsideSegment(n, cwd);
  }

  /** The first three candidates of a one-segment tool directory. */
  lemma CollapsedClimb(n: string, cwd: Path, k: nat)
    requires Normal(cwd) && cwd.absolute && PlainSegment(n) && k < 3
    ensures Candidate(Path(false, [n]), cwd, k) == TemplatesAbove(cwd, k)
  {
    ClimbFromSegment(n, cwd, k + 1);
  }

  lemma InsideSegment(n: string, cwd: Path)
    requires Normal(cwd) && cwd.absolute && PlainSegment(n)
    ensures Resolve(TemplatesAbove(Path(false, [n]), 0), cwd) == Path(true, cwd.segs + [n, "templates"])
  {
    assert Ups(0) + ["templates"] == ["templates"];
    JoinPlain(Path(false, [n]), ["templates"]);
    assert [n] + ["templates"] == [n, "templates"];
    JoinPlain(cwd, [n, "templates"]);
  }

  /** As written, an absolute directory of at least three characters after
      the slash becomes a single plain segment. */
  lemma AsWrittenSegment(cliDir: string)
    requires |cliDir| >= 4 && cliDir[0] == '/'
    ensures PlainSegment(NormalizeCliDirAsWritten(cliDir))
    ensures '/' !in NormalizeCliDirAsWritten(cliDir)
  {
    var t := cliDir[1..];
    var r := ReplaceAll(t, '/', "\\");
    assert |r| == |t| + Count(t, '/') * 0;
  }

  /** Climbing `ups` levels from a one-segment relative path and resolving
      lands `ups - 1` levels above the working directory. */
  lemma ClimbFromSegment(n: string, cwd: Path, ups: nat)
    requires Normal(cwd) && cwd.absolute && PlainSegment(n)
    requires ups >= 1
    ensures Resolve(TemplatesAbove(Path(false, [n]), ups), cwd) == TemplatesAbove(cwd, ups - 1)
  {
    ClimbRelative(n, ups);
    JoinSegsAppend(Path(false, [n]), Ups(ups), ["templates"]);
    JoinPlain(Path(false, Ups(ups - 1)), ["templates"]);
  }

  lemma {:induction false} ClimbRelative(n: string, ups: nat)
    requires PlainSegment(n) && ups >= 1
    ensures JoinSegs(Path(false, [n]), Ups(ups)) == Path(false, Ups(ups - 1))
  {
    if ups > 1 {
      ClimbRelative(n, ups - 1);
      assert Ups(ups) == Ups(ups - 1) + [".."];
      JoinSegsAppend(Path(false, [n]), Ups(ups - 1), [".."]);
    }
  }

  predicate PlainSegments(segs: seq<string>) {
    forall i :: 0 <= i < |segs| ==> PlainSegment(segs[i]) && '/' !in segs[i]
  }

  /** With the corrected normalisation a POSIX tool directory is used as it
      is: the first three candidates are the `templates` directories one,
      two and three levels above it, the fourth the one inside it. */
  lemma ToolRelativeCandidates(segs: seq<string>, cwd: Path)
    requires Normal(cwd) && cwd.absolute
    requires |segs| >= 3 && PlainSegments(segs)
    requires !DrivePath("/" + JoinWith(segs, '/'))
    ensures var cs := Candidates(Parse(NormalizeCliDir("/" + JoinWith(segs, '/'))), cwd);
            && cs[0] == Path(true, segs[..|segs| - 1] + ["templates"])
            && cs[1] == Path(true, segs[..|segs| - 2] + ["templates"])
            && cs[2] == Path(true, segs[..|segs| - 3] + ["templates"])
            && cs[3] == Path(true, segs + ["templates"])
  {
    ParseAbsolute(segs);
    PlainCandidates(segs, cwd);
  }

  lemma PlainCandidates(segs: seq<string>, cwd: Path)
    requires Normal(cwd) && cwd.absolute
    requires |segs| >= 3 && PlainSegments(segs)
    ensures var cs := Candidates(Path(true, segs), cwd);
            && cs[0] == Path(true, segs[..|segs| - 1] + ["templates"])
            && cs[1] == Path(true, segs[..|segs| - 2] + ["templates"])
            && cs[2] == Path(true, segs[..|segs| - 3] + ["templates"])
            && cs[3] == Path(true, segs + ["templates"])
  {
    ClimbFromPlain(segs, 1);
    ClimbFromPlain(segs, 2);
    ClimbFromPlain(segs, 3);
    ClimbFromPlain(segs, 0);
  }

  lemma ClimbFromPlain(segs: seq<string>, ups: nat)
    requires ups <= |segs| && PlainSegments(segs)
    ensures TemplatesAbove(Path(true, segs), ups) == Path(true, segs[..|segs| - ups] + ["templates"])
  {
    ClimbPlain(segs, ups);
    JoinSegsAppend(Path(true, segs), Ups(ups), ["templates"]);
    JoinPlain(Path(true, segs[..|segs| - ups]), ["templates"]);
  }

  lemma {:induction false} ClimbPlain(segs: seq<string>, ups: nat)
    requires ups <= |segs| && PlainSegments(segs)
    ensures JoinSegs(Path(true, segs), Ups(ups)) == Path(true, segs[..|segs| - ups])
  {
    if ups > 0 {
      ClimbPlain(segs, ups - 1);
      assert Ups(ups) == Ups(ups - 1) + [".."];
      JoinSegsAppend(Path(true, segs), Ups(ups - 1), [".."]);
      var above := segs[..|segs| - (ups - 1)];
      assert above[..|above| - 1] == segs[..|segs| - ups];
    } else {
      assert segs[..|segs|] == segs;
    }
  }

  // ---------------------------------------------------------------------
  // The command

  /** The file system after a step, and whether the step succeeded. */
  datatype Run<T> = Run(fs: FS<Blob>, result: Result<T, CreateError>)

  /** What `createAdditionalFiles` writes, in order: each generated file
      with its content. */
  function Generated(config: ProjectConfig): (r: seq<(seq<string>, Blob)>)
    ensures |r| == |GeneratedFiles|
    ensures forall g :: 0 <= g < |r| ==> r[g].0 == GeneratedFiles[g]
  {
    [ (GeneratedFiles[0], PackageJson(config.name, config.description)),
      (GeneratedFiles[1], NextConfig),
      (GeneratedFiles[2], PostcssConfig),
      (GeneratedFiles[3], TsConfig),
      (GeneratedFiles[4], Readme(config.name, config.description, config.features, config.database)) ]
  }

  /** Sequential `fs.writeFile` calls inside the project: each needs its
      parent directory and the first failure stops the rest. */
  function WriteAll(fs: FS<Blob>, projectPath: Path, writes: seq<(seq<string>, Blob)>): (r: Run<()>)
    requires Normal(projectPath)
    ensures r.fs.dirs == fs.dirs
    ensures r.result.Err? ==> r.result.error.WriteFailed?
    decreases |writes|
  {
    if |writes| == 0 then Run(fs, Ok(()))
    else
      match WriteFile(fs, JoinSegs(projectPath, writes[0].0), writes[0].1)
      case Err(e) => Run(fs, Err(WriteFailed(e)))
      case Ok(next) => WriteAll(next, projectPath, writes[1..])
  }

  /** `setupDatabase`: SQLite gets `data` and `backend/data`. */
  function SetupDatabase(fs: FS<Blob>, projectPath: Path, config: ProjectConfig): (r: FS<Blob>)
    requires Normal(projectPath)
    ensures r.files == fs.files && fs.dirs <= r.dirs
    ensures config.database == Sqlite ==>
              JoinSegs(projectPath, ["data"]) in r.dirs && JoinSegs(projectPath, ["backend", "data"]) in r.dirs
    ensures config.database != Sqlite ==> r == fs
  {
    if config.database == Sqlite then
      EnsureDir(EnsureDir(fs, JoinSegs(projectPath, ["data"])), JoinSegs(projectPath, ["backend", "data"]))
    else fs
  }

  /** The five copy loops of `createProjectStructure`, in order. */
  function CopyTemplates(fs: FS<Blob>, templateDir: Path, projectPath: Path): (r: FS<Blob>)
    requires Normal(templateDir) && Normal(projectPath)
  {
    var afterBackend := CopyEntries(fs, templateDir, projectPath, BackendTemplates);
    var afterFrontend := CopyEntries(afterBackend, templateDir, projectPath, FrontendTemplates);
    var afterEnv := CopyEntries(afterFrontend, templateDir, projectPath, EnvTemplates);
    var afterDocker := CopyEntries(afterEnv, templateDir, projectPath, DockerTemplates);
    CopyEntries(afterDocker, templateDir, projectPath, OtherTemplates)
  }

  /** `createProjectStructure`: the skeleton, the templates directory
      (looked for with the tool's directory as normalised), then the rest. */
  function CreateStructure(fs: FS<Blob>, cwd: Path, normalizedCliDir: string, projectPath: Path, config: ProjectConfig): (r: Run<Path>)
    requires Normal(cwd) && cwd.absolute && Normal(projectPath)
    // The skeleton stays, whatever follows.
    ensures fs.dirs <= MakeDirs(fs, projectPath, Skeleton).dirs <= r.fs.dirs
    // Without a templates directory nothing but the skeleton is made.
    ensures LocateWith(MakeDirs(fs, projectPath, Skeleton), cwd, normalizedCliDir).Err? ==>
              r == Run(MakeDirs(fs, projectPath, Skeleton), Err(TemplatesNotFound))
  {
    var withDirs := MakeDirs(fs, projectPath, Skeleton);
    var located := LocateWith(withDirs, cwd, normalizedCliDir);
    var r := FillStructure(withDirs, located, projectPath, config);
    FillStructureKeepsDirs(withDirs, located, projectPath, config);
    assert withDirs.dirs <= r.fs.dirs;
    r
  }

  /** With the templates directory located: run the copy loops and write
      the generated files; without one: stop with the locator's error. */
  function FillStructure(withDirs: FS<Blob>, located: Result<Path, CreateError>, projectPath: Path, config: ProjectConfig): (r: Run<Path>)
    requires Normal(projectPath)
    requires located.Ok? ==> Normal(located.value)
  {
    match located
    case Err(e) => Run(withDirs, Err(e))
    case Ok(templateDir) =>
      var written := WriteAll(CopyTemplates(withDirs, templateDir, projectPath), projectPath, Generated(config));
      Run(written.fs, if written.result.Ok? then Ok(templateDir) else Err(written.result.error))
  }

  /** `createProject` with the tool's directory already normalised.
      `cwd` is the working directory, `answers` what the prompts return,
      `installs` whether both `npm install` runs succeed. The lemmas below
      are stated for any normalisation, so they hold of the command as
      written and of the corrected one alike. */
  function CreateProjectWith(fs: FS<Blob>, cwd: Path, normalizedCliDir: string, name: string, options: CreateOptions,
                             answers: Answers, installs: bool): (r: Run<ProjectConfig>)
    requires Normal(cwd) && cwd.absolute
    ensures Exists(fs, ProjectPath(cwd, name)) ==> r == Run(fs, Err(AlreadyExists(name)))
    // A file on the way to the project directory stops the command before
    // anything is made.
    ensures !Exists(fs, ProjectPath(cwd, name)) && Blocked(fs, ProjectPath(cwd, name)) ==>
              r == Run(fs, Err(MakeDirFailed(NotADirectory(ProjectPath(cwd, name)))))
    ensures r.result.Ok? ==> r.result.value == GetProjectConfig(name, options, answers) && installs
  {
    var projectPath := ProjectPath(cwd, name);
    if Exists(fs, projectPath) then Run(fs, Err(AlreadyExists(name)))
    else
      match TryEnsureDir(fs, projectPath)
      case Err(e) => Run(fs, Err(MakeDirFailed(e)))
      case Ok(base) =>
        var config := GetProjectConfig(name, options, answers);
        var structure := CreateStructure(base, cwd, normalizedCliDir, projectPath, config);
        if structure.result.Err? then Run(structure.fs, Err(structure.result.error))
        else if !installs then Run(structure.fs, Err(InstallFailed))
        else Run(SetupDatabase(structure.fs, projectPath, config), Ok(config))
  }

  /** `createProject` as written: `cliDir`, the directory of the tool's
      compiled module, goes through the normalisation as written. */
  function CreateProject(fs: FS<Blob>, cwd: Path, cliDir: string, name: string, options: CreateOptions,
                         answers: Answers, installs: bool): (r: Run<ProjectConfig>)
    requires Normal(cwd) && cwd.absolute
    ensures Exists(fs, ProjectPath(cwd, name)) ==> r == Run(fs, Err(AlreadyExists(name)))
    ensures !Exists(fs, ProjectPath(cwd, name)) && Blocked(fs, ProjectPath(cwd, name)) ==>
              r == Run(fs, Err(MakeDirFailed(NotADirectory(ProjectPath(cwd, name)))))
    ensures r.result.Ok? ==> r.result.value == GetProjectConfig(name, options, answers) && installs
  {
    CreateProjectWith(fs, cwd, NormalizeCliDirAsWritten(cliDir), name, options, answers, installs)
  }

  /** `createProject` with the corrected normalisation. */
  function CreateProjectCorrected(fs: FS<Blob>, cwd: Path, cliDir: string, name: string, options: CreateOptions,
                                  answers: Answers, installs: bool): (r: Run<ProjectConfig>)
    requires Normal(cwd) && cwd.absolute
    ensures Exists(fs, ProjectPath(cwd, name)) ==> r == Run(fs, Err(AlreadyExists(name)))
    ensures !Exists(fs, ProjectPath(cwd, name)) && Blocked(fs, ProjectPath(cwd, name)) ==>
              r == Run(fs, Err(MakeDirFailed(NotADirectory(ProjectPath(cwd, name)))))
    ensures r.result.Ok? ==> r.result.value == GetProjectConfig(name, options, answers) && installs
  {
    CreateProjectWith(fs, cwd, NormalizeCliDir(cliDir), name, options, answers, installs)
  }

  /** `path.resolve(projectName)`. */
  function ProjectPath(cwd: Path, name: string): (r: Path)
    requires Normal(cwd) && cwd.absolute
    ensures Normal(r) && r.absolute
  {
    Resolve(Parse(name), cwd)
  }

  /** The concrete case: the tool's module directory is
      `/opt/tool/dist/cli`, its templates are in `/opt/tool/templates`, and
      it is run from `/home/user`, which has no templates directory nearby. */
  const ExampleToolSegs: seq<string> := ["opt", "tool", "dist", "cli"]
  /** The tool installed in `/opt/tool/dist/cli`. */
  const ExampleCliDir := "/" + JoinWith(ExampleToolSegs, '/')
  const ExampleTemplates := Path(true, ["opt", "tool", "templates"])
  const ExampleCwd := Path(true, ["home", "user"])
  const ExampleFs: FS<Blob> := FS(map[], AncestorsAndSelf(ExampleTemplates))

  /** Nothing next to the example working directory exists. */
  lemma ExampleCwdEmpty()
    ensures Normal(ExampleCwd)
    ensures !Exists(ExampleFs, TemplatesAbove(ExampleCwd, 0))
    ensures !Exists(ExampleFs, TemplatesAbove(ExampleCwd, 1))
    ensures !Exists(ExampleFs, TemplatesAbove(ExampleCwd, 2))
  {
    ExampleNothingAbove(0);
    ExampleNothingAbove(1);
    ExampleNothingAbove(2);
  }

  lemma ExampleNothingAbove(ups: nat)
    requires ups < 3
    ensures !Exists(ExampleFs, TemplatesAbove(ExampleCwd, ups))
  {
    var home := ExampleCwd.segs;
    ClimbFromPlain(home, ups);
    var segs := home[..2 - ups] + ["templates"];
    assert segs[0] == (if ups == 2 then "templates" else "home");
    NotUnderExample(segs);
  }

  /** Every directory of the example lies on the way to its templates. */
  lemma NotUnderExample(segs: seq<string>)
    requires (|segs| > 0 && segs[0] != "opt") || |segs| > |ExampleTemplates.segs|
    ensures !Exists(ExampleFs, Path(true, segs))
  {
    assert ExampleTemplates.segs[0] == "opt";
    assert forall q :: q in ExampleFs.dirs ==> IsPrefix(q, ExampleTemplates);
  }

  /** The example's tool directory is a POSIX path and parses to its
      segments. */
  lemma ExampleCliDirParses()
    ensures !DrivePath(ExampleCliDir)
    ensures Parse(NormalizeCliDir(ExampleCliDir)) == Path(true, ExampleToolSegs)
  {
    assert JoinWith(ExampleToolSegs, '/')[1] == 'p';
    ExampleToolSegsPlain();
    ParseAbsolute(ExampleToolSegs);
  }

  /** As written, whatever the tool's directory, the only directories the
      locator can return are `templates` in, above or two above the working
      directory, or inside the one junk-named subdirectory. */
  lemma AsWrittenStaysNearCwd<C>(fs: FS<C>, cwd: Path, cliDir: string)
    requires Normal(cwd) && cwd.absolute
    requires |cliDir| >= 4 && cliDir[0] == '/'
    ensures var r := LocateAsWritten(fs, cwd, cliDir);
            r.Ok? ==> r.value in [TemplatesAbove(cwd, 0), TemplatesAbove(cwd, 1), TemplatesAbove(cwd, 2),
                                  Path(true, cwd.segs + [NormalizeCliDirAsWritten(cliDir), "templates"])]
  {
    AsWrittenIgnoresToolLocation(cliDir, cwd);
    var n := NormalizeCliDirAsWritten(cliDir);
    var cs := Candidates(Parse(n), cwd);
    var r := LocateWith(fs, cwd, n);
    if r.Ok? && r.value != TemplatesAbove(cwd, 0) {
      var i :| 0 <= i < 6 && r.value == cs[i];
      if i == 1 || i == 4 {
        assert r.value == cs[4] == TemplatesAbove(cwd, 1);
      } else if i == 2 || i == 5 {
        assert r.value == cs[5] == TemplatesAbove(cwd, 2);
      } else if i == 3 {
        assert r.value == cs[3];
      }
    }
  }

  /** As written, the example layout finds nothing, for `/opt/tool/dist/cli`
      as for any other absolute tool directory. */
  lemma LocateAsWrittenMissesExample(cliDir: string)
    requires |cliDir| >= 4 && cliDir[0] == '/'
    ensures LocateAsWritten(ExampleFs, ExampleCwd, cliDir) == Err(TemplatesNotFound)
  {
    var r := LocateAsWritten(ExampleFs, ExampleCwd, cliDir);
    if r.Ok? {
      var near := Path(true, ExampleCwd.segs + [NormalizeCliDirAsWritten(cliDir), "templates"]);
      ExampleCwdEmpty();
      NotUnderExample(near.segs);
      AsWrittenStaysNearCwd(ExampleFs, ExampleCwd, cliDir);
      assert false;
    }
  }

  /** With the corrected normalisation, the example finds the tool's own
      templates. */
  lemma LocateFindsExample()
    ensures Locate(ExampleFs, ExampleCwd, ExampleCliDir) == Ok(ExampleTemplates)
  {
    ExampleCwdEmpty();
    ExampleCliDirParses();
    ExampleSecondCandidate();
    var cs := Candidates(Path(true, ExampleToolSegs), ExampleCwd);
    var r := LocateWith(ExampleFs, ExampleCwd, NormalizeCliDir(ExampleCliDir));
    assert r.Ok? by {
      assert 0 <= 1 < 6 && Exists(ExampleFs, cs[1]);
    }
    var i :| 0 <= i < 6 && r.value == cs[i] && Exists(ExampleFs, cs[i])
             && forall j :: 0 <= j < i ==> !Exists(ExampleFs, cs[j]);
    assert i == 1;
  }

  /** The example's first candidate is missing and its second is the
      tool's own templates directory. */
  lemma ExampleSecondCandidate()
    ensures var cs := Candidates(Path(true, ExampleToolSegs), ExampleCwd);
            && !Exists(ExampleFs, cs[0])
            && cs[1] == ExampleTemplates && Exists(ExampleFs, cs[1])
  {
    ExampleFirstMissing();
    ExampleSecondFound();
  }

  lemma ExampleFirstMissing()
    ensures !Exists(ExampleFs, Candidates(Path(true, ExampleToolSegs), ExampleCwd)[0])
  {
    var segs := ExampleToolSegs;
    ExampleToolSegsPlain();
    PlainCandidates(segs, ExampleCwd);
    assert |segs[..3] + ["templates"]| > |ExampleTemplates.segs|;
    NotUnderExample(segs[..3] + ["templates"]);
  }

  lemma ExampleSecondFound()
    ensures Candidates(Path(true, ExampleToolSegs), ExampleCwd)[1] == ExampleTemplates
  {
    var segs := ExampleToolSegs;
    ExampleToolSegsPlain();
    PlainCandidates(segs, ExampleCwd);
    assert segs[..2] + ["templates"] == ExampleTemplates.segs;
  }

  lemma ExampleToolSegsPlain()
    ensures |ExampleToolSegs| >= 3 && PlainSegments(ExampleToolSegs)
  {
  }

  // ---------------------------------------------------------------------
  // Properties of the command

  /** The directory of every file and of every directory, and all its
      ancestors, exist, as on a real file system. */
  ghost predicate ParentsExist<C>(fs: FS<C>) {
    && (forall f :: f in fs.files ==> AncestorsAndSelf(Parent(f)) <= fs.dirs)
    && (forall d :: d in fs.dirs ==> AncestorsAndSelf(Parent(d)) <= fs.dirs)
  }

  /** Extending a path with at least one segment gives a path strictly
      inside it. */
  lemma UnderPath(p: Path, segs: seq<string>)
    requires Normal(p) && |segs| >= 1 && forall k :: 0 <= k < |segs| ==> PlainSegment(segs[k])
    ensures p in AncestorsAndSelf(Parent(JoinSegs(p, segs)))
  {
    JoinPlain(p, segs);
    var q := JoinSegs(p, segs);
    var parent := Parent(q);
    assert parent.segs == (p.segs + segs)[..|p.segs| + |segs| - 1];
    assert parent.segs[..|p.segs|] == p.segs;
    assert p == Path(parent.absolute, parent.segs[..|p.segs|]);
  }

  /** On a well-formed file system without `p`, nothing lies inside `p`. */
  lemma NothingUnder<C>(fs: FS<C>, p: Path, segs: seq<string>)
    requires ParentsExist(fs) && !Exists(fs, p)
    requires Normal(p) && |segs| >= 1 && forall k :: 0 <= k < |segs| ==> PlainSegment(segs[k])
    ensures !Exists(fs, JoinSegs(p, segs))
  {
    UnderPath(p, segs);
  }

  /** A sequence of writes to different paths that are no directories and
      whose directories all exist succeeds; each path then holds its content
      and nothing else changes. */
  lemma WriteAllSucceeds(fs: FS<Blob>, projectPath: Path, writes: seq<(seq<string>, Blob)>)
    requires Normal(projectPath)
    requires forall h :: 0 <= h < |writes| ==> Parent(JoinSegs(projectPath, writes[h].0)) in fs.dirs
    requires forall h :: 0 <= h < |writes| ==> JoinSegs(projectPath, writes[h].0) !in fs.dirs
    requires forall g, h :: 0 <= g < h < |writes| ==> JoinSegs(projectPath, writes[g].0) != JoinSegs(projectPath, writes[h].0)
    ensures var r := WriteAll(fs, projectPath, writes);
            && r.result.Ok?
            && (forall h :: 0 <= h < |writes| ==>
                  var q := JoinSegs(projectPath, writes[h].0);
                  q in r.fs.files && r.fs.files[q] == writes[h].1)
            && (forall q :: (forall h :: 0 <= h < |writes| ==> q != JoinSegs(projectPath, writes[h].0)) ==>
                  (q in r.fs.files <==> q in fs.files) && (q in fs.files ==> r.fs.files[q] == fs.files[q]))
  {
    var r := WriteAll(fs, projectPath, writes);
    WriteAllOk(fs, projectPath, writes);
    forall h | 0 <= h < |writes|
      ensures var q := JoinSegs(projectPath, writes[h].0);
              q in r.fs.files && r.fs.files[q] == writes[h].1
    {
      WriteAllAt(fs, projectPath, writes, h);
    }
    forall q | forall h :: 0 <= h < |writes| ==> q != JoinSegs(projectPath, writes[h].0)
      ensures (q in r.fs.files <==> q in fs.files) && (q in fs.files ==> r.fs.files[q] == fs.files[q])
    {
      WriteAllElsewhere(fs, projectPath, writes, q);
    }
  }

  /** Writes whose directories all exist, onto paths that are no
      directories, all succeed. */
  lemma {:induction false} WriteAllOk(fs: FS<Blob>, projectPath: Path, writes: seq<(seq<string>, Blob)>)
    requires Normal(projectPath)
    requires forall h :: 0 <= h < |writes| ==> Parent(JoinSegs(projectPath, writes[h].0)) in fs.dirs
    requires forall h :: 0 <= h < |writes| ==> JoinSegs(projectPath, writes[h].0) !in fs.dirs
    ensures WriteAll(fs, projectPath, writes).result.Ok?
    decreases |writes|
  {
    if |writes| > 0 {
      var q := JoinSegs(projectPath, writes[0].0);
      assert forall h :: 0 <= h < |writes[1..]| ==> writes[1..][h] == writes[h + 1];
      WriteAllOk(FS(fs.files[q := writes[0].1], fs.dirs), projectPath, writes[1..]);
    }
  }

  /** A path no write names keeps its file, or its absence, whether the
      writes succeed or not. */
  lemma {:induction false} WriteAllElsewhere(fs: FS<Blob>, projectPath: Path, writes: seq<(seq<string>, Blob)>, q: Path)
    requires Normal(projectPath)
    requires forall h :: 0 <= h < |writes| ==> q != JoinSegs(projectPath, writes[h].0)
    ensures var r := WriteAll(fs, projectPath, writes);
            (q in r.fs.files <==> q in fs.files) && (q in fs.files ==> r.fs.files[q] == fs.files[q])
    decreases |writes|
  {
    if |writes| > 0 {
      var p := JoinSegs(projectPath, writes[0].0);
      var written := WriteFile(fs, p, writes[0].1);
      if written.Ok? {
        assert forall h :: 0 <= h < |writes[1..]| ==> writes[1..][h] == writes[h + 1];
        WriteAllElsewhere(written.value, projectPath, writes[1..], q);
      }
    }
  }

  /** A write onto a directory fails, and so does the whole sequence. */
  lemma {:induction false} WriteAllOntoDirectory(fs: FS<Blob>, projectPath: Path, writes: seq<(seq<string>, Blob)>, h: nat)
    requires Normal(projectPath)
    requires h < |writes| && JoinSegs(projectPath, writes[h].0) in fs.dirs
    ensures WriteAll(fs, projectPath, writes).result.Err?
    decreases |writes|
  {
    var written := WriteFile(fs, JoinSegs(projectPath, writes[0].0), writes[0].1);
    if h > 0 && written.Ok? {
      assert writes[1..][h - 1] == writes[h];
      WriteAllOntoDirectory(written.value, projectPath, writes[1..], h - 1);
    }
  }

  /** Write `h` leaves its content at its path. */
  lemma {:induction false} WriteAllAt(fs: FS<Blob>, projectPath: Path, writes: seq<(seq<string>, Blob)>, h: nat)
    requires Normal(projectPath)
    requires forall h :: 0 <= h < |writes| ==> Parent(JoinSegs(projectPath, writes[h].0)) in fs.dirs
    requires forall h :: 0 <= h < |writes| ==> JoinSegs(projectPath, writes[h].0) !in fs.dirs
    requires forall g, h :: 0 <= g < h < |writes| ==> JoinSegs(projectPath, writes[g].0) != JoinSegs(projectPath, writes[h].0)
    requires h < |writes|
    ensures var r := WriteAll(fs, projectPath, writes);
            var q := JoinSegs(projectPath, writes[h].0);
            q in r.fs.files && r.fs.files[q] == writes[h].1
    decreases |writes|
  {
    var p := JoinSegs(projectPath, writes[0].0);
    var next := FS(fs.files[p := writes[0].1], fs.dirs);
    var rest := writes[1..];
    assert forall k :: 0 <= k < |rest| ==> rest[k] == writes[k + 1];
    if h == 0 {
      WriteAllElsewhere(next, projectPath, rest, p);
    } else {
      WriteAllAt(next, projectPath, rest, h - 1);
    }
  }

  /** The generated files are five different paths. */
  lemma GeneratedDistinct(projectPath: Path, config: ProjectConfig)
    requires Normal(projectPath)
    ensures var w := Generated(config);
            forall g, h :: 0 <= g < h < |w| ==> JoinSegs(projectPath, w[g].0) != JoinSegs(projectPath, w[h].0)
  {
    forall g, h | 0 <= g < h < |GeneratedFiles|
      ensures JoinSegs(projectPath, GeneratedFiles[g]) != JoinSegs(projectPath, GeneratedFiles[h])
    {
      DestInjective(projectPath, Entry("package.json", GeneratedFiles[g]), Entry("package.json", GeneratedFiles[h]));
    }
  }

  lemma CopyTemplatesKeepsDirs(fs: FS<Blob>, templateDir: Path, projectPath: Path)
    requires Normal(templateDir) && Normal(projectPath)
    ensures fs.dirs <= CopyTemplates(fs, templateDir, projectPath).dirs
  {
  }

  lemma FillStructureKeepsDirs(withDirs: FS<Blob>, located: Result<Path, CreateError>, projectPath: Path, config: ProjectConfig)
    requires Normal(projectPath)
    requires located.Ok? ==> Normal(located.value)
    ensures withDirs.dirs <= FillStructure(withDirs, located, projectPath, config).fs.dirs
  {
    if located.Ok? {
      CopyTemplatesKeepsDirs(withDirs, located.value, projectPath);
    }
  }

  /** When the project directory can be made, the file system after
      `createProject` is the one after `createProjectStructure`, plus the
      database directories on success. */
  lemma CreateProjectSteps(fs: FS<Blob>, cwd: Path, normalizedCliDir: string, name: string, options: CreateOptions,
                           answers: Answers, installs: bool)
    requires Normal(cwd) && cwd.absolute
    requires !Exists(fs, ProjectPath(cwd, name)) && !Blocked(fs, ProjectPath(cwd, name))
    ensures var projectPath := ProjectPath(cwd, name);
            var config := GetProjectConfig(name, options, answers);
            var structure := CreateStructure(EnsureDir(fs, projectPath), cwd, normalizedCliDir, projectPath, config);
            var r := CreateProjectWith(fs, cwd, normalizedCliDir, name, options, answers, installs);
            && (structure.result.Err? ==> r == Run(structure.fs, Err(structure.result.error)))
            && (structure.result.Ok? && !installs ==> r == Run(structure.fs, Err(InstallFailed)))
            && (structure.result.Ok? && installs ==> r == Run(SetupDatabase(structure.fs, projectPath, config), Ok(config)))
  {
  }

  /** A child's ancestors are its parent's ancestors and itself. */
  lemma AncestorsOfChild(q: Path, seg: string)
    ensures AncestorsAndSelf(Path(q.absolute, q.segs + [seg])) == AncestorsAndSelf(q) + {Path(q.absolute, q.segs + [seg])}
  {
    var c := q.segs + [seg];
    forall k | 0 <= k <= |q.segs| ensures Path(q.absolute, c[..k]) == Path(q.absolute, q.segs[..k]) {
      assert c[..k] == q.segs[..k];
    }
    assert c[..|c|] == c;
  }

  /** The skeleton holds the parents of both database directories. */
  lemma SkeletonHoldsDatabaseParents(fs: FS<Blob>, p: Path)
    requires Normal(p)
    ensures JoinSegs(p, ["backend"]) in MakeDirs(fs, p, Skeleton).dirs
    ensures JoinSegs(p, ["data"]) in MakeDirs(fs, p, Skeleton).dirs
  {
    assert Skeleton[0] == ["backend"] && Skeleton[21] == ["data"];
  }

  /** Setting up the database on a tree that already holds the project
      directory's ancestors, `backend` and `data` writes no file and adds
      at most `backend/data`. */
  lemma SetupDatabaseAddsAtMostBackendData(fs: FS<Blob>, p: Path, config: ProjectConfig)
    requires Normal(p)
    requires AncestorsAndSelf(p) <= fs.dirs
    requires JoinSegs(p, ["backend"]) in fs.dirs && JoinSegs(p, ["data"]) in fs.dirs
    ensures SetupDatabase(fs, p, config).files == fs.files
    ensures SetupDatabase(fs, p, config).dirs <= fs.dirs + {JoinSegs(p, ["backend", "data"])}
  {
    if config.database == Sqlite {
      var backend := Path(p.absolute, p.segs + ["backend"]);
      JoinPlain(p, ["backend"]);
      JoinPlain(p, ["data"]);
      JoinPlain(p, ["backend", "data"]);
      assert p.segs + ["backend", "data"] == backend.segs + ["data"];
      AncestorsOfChild(p, "data");
      AncestorsOfChild(p, "backend");
      AncestorsOfChild(backend, "data");
    }
  }

  /** A file on the way to the project directory stops the command at
      once: nothing is made or written. Otherwise, nothing the command does
      after building the structure writes a file in the model, and the only
      directory it can add is `backend/data`: `data` and every ancestor of
      both database directories are already there. */
  lemma CreateAfterStructure(fs: FS<Blob>, cwd: Path, normalizedCliDir: string, name: string, options: CreateOptions,
                             answers: Answers, installs: bool)
    requires Normal(cwd) && cwd.absolute
    requires !Exists(fs, ProjectPath(cwd, name))
    ensures var projectPath := ProjectPath(cwd, name);
            var config := GetProjectConfig(name, options, answers);
            var structure := CreateStructure(EnsureDir(fs, projectPath), cwd, normalizedCliDir, projectPath, config);
            var r := CreateProjectWith(fs, cwd, normalizedCliDir, name, options, answers, installs);
            && (Blocked(fs, projectPath) ==> r == Run(fs, Err(MakeDirFailed(NotADirectory(projectPath)))))
            && (!Blocked(fs, projectPath) ==>
                  && r.fs.files == structure.fs.files
                  && structure.fs.dirs <= r.fs.dirs
                  && r.fs.dirs <= structure.fs.dirs + {JoinSegs(projectPath, ["backend", "data"])})
  {
    var p := ProjectPath(cwd, name);
    if !Blocked(fs, p) {
      var config := GetProjectConfig(name, options, answers);
      var base := EnsureDir(fs, p);
      var structure := CreateStructure(base, cwd, normalizedCliDir, p, config);
      SkeletonHoldsDatabaseParents(base, p);
      SetupDatabaseAddsAtMostBackendData(structure.fs, p, config);
      CreateProjectSteps(fs, cwd, normalizedCliDir, name, options, answers, installs);
    }
  }

  /** Once the precheck passes, the command either stops on a file in the
      way of the project directory, changing nothing, or leaves the project
      directory and every skeleton directory in place, whatever else
      happens. */
  lemma CreateBuildsSkeleton(fs: FS<Blob>, cwd: Path, normalizedCliDir: string, name: string, options: CreateOptions,
                             answers: Answers, installs: bool)
    requires Normal(cwd) && cwd.absolute
    requires !Exists(fs, ProjectPath(cwd, name))
    ensures var projectPath := ProjectPath(cwd, name);
            var r := CreateProjectWith(fs, cwd, normalizedCliDir, name, options, answers, installs);
            && (Blocked(fs, projectPath) ==> r == Run(fs, Err(MakeDirFailed(NotADirectory(projectPath)))))
            && (!Blocked(fs, projectPath) ==>
                  && projectPath in r.fs.dirs
                  && forall k :: 0 <= k < |Skeleton| ==> JoinSegs(projectPath, Skeleton[k]) in r.fs.dirs)
  {
    if !Blocked(fs, ProjectPath(cwd, name)) {
      CreateAfterStructure(fs, cwd, normalizedCliDir, name, options, answers, installs);
    }
  }

  /** When no templates directory is found the command fails with that
      error, unless a file in the way of the project directory stopped it
      earlier; either way no file has been written. */
  lemma CreateWithoutTemplates(fs: FS<Blob>, cwd: Path, normalizedCliDir: string, name: string, options: CreateOptions,
                               answers: Answers, installs: bool)
    requires Normal(cwd) && cwd.absolute
    requires !Exists(fs, ProjectPath(cwd, name))
    requires var projectPath := ProjectPath(cwd, name);
             LocateWith(MakeDirs(EnsureDir(fs, projectPath), projectPath, Skeleton), cwd, normalizedCliDir).Err?
    ensures var projectPath := ProjectPath(cwd, name);
            var r := CreateProjectWith(fs, cwd, normalizedCliDir, name, options, answers, installs);
            && r.fs.files == fs.files
            && r.result == (if Blocked(fs, projectPath) then Err(MakeDirFailed(NotADirectory(projectPath)))
                            else Err(TemplatesNotFound))
  {
    if !Blocked(fs, ProjectPath(cwd, name)) {
      CreateProjectSteps(fs, cwd, normalizedCliDir, name, options, answers, installs);
    }
  }

  /** The five copy loops together are one loop over the manifest. */
  lemma CopyTemplatesIsManifest(fs: FS<Blob>, templateDir: Path, projectPath: Path)
    requires Normal(templateDir) && Normal(projectPath)
    ensures CopyTemplates(fs, templateDir, projectPath) == CopyEntries(fs, templateDir, projectPath, Manifest)
  {
    var b, f, e, d := BackendTemplates, FrontendTemplates, EnvTemplates, DockerTemplates;
    CopyEntriesAppend(fs, templateDir, projectPath, b, f);
    CopyEntriesAppend(fs, templateDir, projectPath, b + f, e);
    CopyEntriesAppend(fs, templateDir, projectPath, b + f + e, d);
    CopyEntriesAppend(fs, templateDir, projectPath, b + f + e + d, OtherTemplates);
  }

  /** Copying entries into a project directory that did not exist: each
      destination holds its source exactly when the source file exists, and
      every other file is as it was. */
  lemma CopyIntoFreshProject(fs: FS<Blob>, withDirs: FS<Blob>, templateDir: Path, projectPath: Path, es: seq<Entry>)
    requires Normal(templateDir) && Normal(projectPath)
    requires ParentsExist(fs) && !Exists(fs, projectPath) && withDirs.files == fs.files
    requires !IsPrefix(projectPath, templateDir)
    requires ValidEntries(es) && DistinctDests(es)
    ensures var copied := CopyEntries(withDirs, templateDir, projectPath, es);
            forall i :: 0 <= i < |es| ==>
              var src := SrcPath(templateDir, es[i]);
              var dest := DestPath(projectPath, es[i]);
              && (dest in copied.files <==> src in fs.files)
              && (src in fs.files ==> copied.files[dest] == fs.files[src])
    ensures var copied := CopyEntries(withDirs, templateDir, projectPath, es);
            forall q :: (forall i :: 0 <= i < |es| ==> q != DestPath(projectPath, es[i])) ==>
              (q in copied.files <==> q in fs.files) && (q in fs.files ==> copied.files[q] == fs.files[q])
  {
    CopyEntriesFiles(withDirs, templateDir, projectPath, es);
    forall i | 0 <= i < |es| ensures DestPath(projectPath, es[i]) !in fs.files {
      NothingUnder(fs, projectPath, es[i].dest);
    }
  }

  /** Inside a path, the parent of a child is the path extended by all but
      the last segment. */
  lemma ParentOfJoin(p: Path, segs: seq<string>)
    requires Normal(p) && |segs| >= 1 && forall k :: 0 <= k < |segs| ==> PlainSegment(segs[k])
    ensures Parent(JoinSegs(p, segs)) == JoinSegs(p, segs[..|segs| - 1])
  {
    JoinPlain(p, segs);
    JoinPlain(p, segs[..|segs| - 1]);
    assert (p.segs + segs)[..|p.segs| + |segs| - 1] == p.segs + segs[..|segs| - 1];
  }

  /** With the project and `frontend` directories present the generated
      files are written exactly when none of their paths is a directory;
      then each holds its content. No other file changes either way. */
  lemma GeneratedWritten(fs: FS<Blob>, projectPath: Path, config: ProjectConfig)
    requires Normal(projectPath)
    requires projectPath in fs.dirs && JoinSegs(projectPath, ["frontend"]) in fs.dirs
    ensures var w := Generated(config);
            var r := WriteAll(fs, projectPath, w);
            && (r.result.Ok? <==> forall g :: 0 <= g < |w| ==> JoinSegs(projectPath, w[g].0) !in fs.dirs)
            && (r.result.Ok? ==> forall g :: 0 <= g < |w| ==>
                  var q := JoinSegs(projectPath, w[g].0);
                  q in r.fs.files && r.fs.files[q] == w[g].1)
            && (forall q :: (forall g :: 0 <= g < |w| ==> q != JoinSegs(projectPath, w[g].0)) ==>
                  (q in r.fs.files <==> q in fs.files) && (q in fs.files ==> r.fs.files[q] == fs.files[q]))
  {
    var w := Generated(config);
    forall q | forall g :: 0 <= g < |w| ==> q != JoinSegs(projectPath, w[g].0)
      ensures var r := WriteAll(fs, projectPath, w);
              (q in r.fs.files <==> q in fs.files) && (q in fs.files ==> r.fs.files[q] == fs.files[q])
    {
      WriteAllElsewhere(fs, projectPath, w, q);
    }
    if h :| 0 <= h < |w| && JoinSegs(projectPath, w[h].0) in fs.dirs {
      WriteAllOntoDirectory(fs, projectPath, w, h);
    } else {
      GeneratedParents(projectPath);
      GeneratedDistinct(projectPath, config);
      forall h | 0 <= h < |w| ensures Parent(JoinSegs(projectPath, w[h].0)) in fs.dirs {
        assert w[h].0 == GeneratedFiles[h];
      }
      WriteAllSucceeds(fs, projectPath, w);
    }
  }

  /** Each generated file lies directly in the project or in `frontend`. */
  lemma GeneratedParents(projectPath: Path)
    requires Normal(projectPath)
    ensures forall g :: 0 <= g < |GeneratedFiles| ==>
              var parent := Parent(JoinSegs(projectPath, GeneratedFiles[g]));
              parent == projectPath || parent == JoinSegs(projectPath, ["frontend"])
  {
    forall g | 0 <= g < |GeneratedFiles|
      ensures var parent := Parent(JoinSegs(projectPath, GeneratedFiles[g]));
              parent == projectPath || parent == JoinSegs(projectPath, ["frontend"])
    {
      ParentOfJoin(projectPath, GeneratedFiles[g]);
      if g == 0 || g == 4 {
        assert GeneratedFiles[g][..0] == [];
      } else {
        assert GeneratedFiles[g][..1] == ["frontend"];
      }
    }
  }


  /** Each entry's destination holds its template exactly when the
      template exists. */
  ghost predicate CopiedFrom(before: map<Path, Blob>, after: map<Path, Blob>, templateDir: Path, projectPath: Path,
                             es: seq<Entry>)
    requires Normal(templateDir) && Normal(projectPath)
  {
    forall i :: 0 <= i < |es| ==>
      var src := SrcPath(templateDir, es[i]);
      var dest := DestPath(projectPath, es[i]);
      && (dest in after <==> src in before)
      && (src in before ==> after[dest] == before[src])
  }

  /** Every write's path holds what was written. */
  ghost predicate HoldsWrites(after: map<Path, Blob>, projectPath: Path, w: seq<(seq<string>, Blob)>)
    requires Normal(projectPath)
  {
    forall h :: 0 <= h < |w| ==>
      var q := JoinSegs(projectPath, w[h].0);
      q in after && after[q] == w[h].1
  }

  /** No file of `before` is removed or changed. */
  ghost predicate Preserves(before: map<Path, Blob>, after: map<Path, Blob>) {
    forall q :: q in before ==> q in after && after[q] == before[q]
  }

  /** A copy loop followed by a sequence of writes into a project directory
      that did not exist, when no write targets a copy destination or a
      directory on the way to one, nor a directory that was already there. */
  lemma CopyThenWrite(fs: FS<Blob>, withDirs: FS<Blob>, templateDir: Path, projectPath: Path,
                      es: seq<Entry>, w: seq<(seq<string>, Blob)>)
    requires Normal(templateDir) && Normal(projectPath)
    requires ParentsExist(fs) && !Exists(fs, projectPath) && withDirs.files == fs.files
    requires !IsPrefix(projectPath, templateDir)
    requires ValidEntries(es) && DistinctDests(es)
    requires forall h :: 0 <= h < |w| ==> |w[h].0| >= 1 && AllPlain(w[h].0)
    requires forall h :: 0 <= h < |w| ==> Parent(JoinSegs(projectPath, w[h].0)) in withDirs.dirs
    requires forall h :: 0 <= h < |w| ==> JoinSegs(projectPath, w[h].0) !in withDirs.dirs
    requires forall g, h :: 0 <= g < h < |w| ==> JoinSegs(projectPath, w[g].0) != JoinSegs(projectPath, w[h].0)
    requires forall i, h :: 0 <= i < |es| && 0 <= h < |w| ==> !(w[h].0 <= es[i].dest)
    ensures var r := WriteAll(CopyEntries(withDirs, templateDir, projectPath, es), projectPath, w);
            && r.result.Ok?
            && CopiedFrom(fs.files, r.fs.files, templateDir, projectPath, es)
            && HoldsWrites(r.fs.files, projectPath, w)
            && Preserves(fs.files, r.fs.files)
  {
    var copied := CopyEntries(withDirs, templateDir, projectPath, es);
    CopiesLeaveNoDirAtWrites(fs, withDirs, templateDir, projectPath, es, w);
    WriteAllSucceeds(copied, projectPath, w);
    WritesKeepCopies(fs, withDirs, templateDir, projectPath, es, w);
    WritesKeepOldFiles(fs, withDirs, templateDir, projectPath, es, w);
  }

  /** The copies make directories only at destinations and on the way to
      them, so a write path that is neither, and was no directory before,
      is still none. */
  lemma CopiesLeaveNoDirAtWrites(fs: FS<Blob>, withDirs: FS<Blob>, templateDir: Path, projectPath: Path,
                                 es: seq<Entry>, w: seq<(seq<string>, Blob)>)
    requires Normal(templateDir) && Normal(projectPath)
    requires ParentsExist(fs) && !Exists(fs, projectPath) && withDirs.files == fs.files
    requires ValidEntries(es)
    requires forall h :: 0 <= h < |w| ==> |w[h].0| >= 1 && AllPlain(w[h].0)
    requires forall h :: 0 <= h < |w| ==> JoinSegs(projectPath, w[h].0) !in withDirs.dirs
    requires forall i, h :: 0 <= i < |es| && 0 <= h < |w| ==> !(w[h].0 <= es[i].dest)
    ensures forall h :: 0 <= h < |w| ==>
              JoinSegs(projectPath, w[h].0) !in CopyEntries(withDirs, templateDir, projectPath, es).dirs
  {
    forall h | 0 <= h < |w|
      ensures JoinSegs(projectPath, w[h].0) !in CopyEntries(withDirs, templateDir, projectPath, es).dirs
    {
      CopiesLeaveNoDirAt(fs, withDirs, templateDir, projectPath, es, w[h].0);
    }
  }

  /** One write path of the lemma above. */
  lemma CopiesLeaveNoDirAt(fs: FS<Blob>, withDirs: FS<Blob>, templateDir: Path, projectPath: Path,
                           es: seq<Entry>, segs: seq<string>)
    requires Normal(templateDir) && Normal(projectPath)
    requires ParentsExist(fs) && !Exists(fs, projectPath) && withDirs.files == fs.files
    requires ValidEntries(es)
    requires |segs| >= 1 && AllPlain(segs)
    requires JoinSegs(projectPath, segs) !in withDirs.dirs
    requires forall i :: 0 <= i < |es| ==> !(segs <= es[i].dest)
    ensures JoinSegs(projectPath, segs) !in CopyEntries(withDirs, templateDir, projectPath, es).dirs
  {
    var q := JoinSegs(projectPath, segs);
    var copied := CopyEntries(withDirs, templateDir, projectPath, es);
    NothingUnder(fs, projectPath, segs);
    assert !Exists(withDirs, q);
    CopyEntriesNewPaths(withDirs, templateDir, projectPath, es);
    if q in copied.dirs {
      assert Exists(copied, q);
      var i :| 0 <= i < |es| && IsPrefix(q, DestPath(projectPath, es[i]));
      assert ValidEntry(es[i]);
      JoinsNested(projectPath, segs, es[i].dest);
      assert false;
    }
  }

  /** The writes leave every copied destination as the copy left it. */
  lemma WritesKeepCopies(fs: FS<Blob>, withDirs: FS<Blob>, templateDir: Path, projectPath: Path,
                         es: seq<Entry>, w: seq<(seq<string>, Blob)>)
    requires Normal(templateDir) && Normal(projectPath)
    requires ParentsExist(fs) && !Exists(fs, projectPath) && withDirs.files == fs.files
    requires !IsPrefix(projectPath, templateDir)
    requires ValidEntries(es) && DistinctDests(es)
    requires forall h :: 0 <= h < |w| ==> |w[h].0| >= 1 && AllPlain(w[h].0)
    requires forall i, h :: 0 <= i < |es| && 0 <= h < |w| ==> es[i].dest != w[h].0
    ensures var r := WriteAll(CopyEntries(withDirs, templateDir, projectPath, es), projectPath, w);
            CopiedFrom(fs.files, r.fs.files, templateDir, projectPath, es)
  {
    var copied := CopyEntries(withDirs, templateDir, projectPath, es);
    var r := WriteAll(copied, projectPath, w);
    CopyIntoFreshProject(fs, withDirs, templateDir, projectPath, es);
    forall i | 0 <= i < |es|
      ensures var dest := DestPath(projectPath, es[i]);
              (dest in r.fs.files <==> dest in copied.files) && (dest in copied.files ==> r.fs.files[dest] == copied.files[dest])
    {
      var dest := DestPath(projectPath, es[i]);
      forall h | 0 <= h < |w| ensures dest != JoinSegs(projectPath, w[h].0) {
        DestInjective(projectPath, es[i], Entry("package.json", w[h].0));
      }
      WriteAllElsewhere(copied, projectPath, w, dest);
    }
  }

  /** Files that existed before are untouched by the copies and the
      writes, all of which land inside the new project directory. */
  lemma WritesKeepOldFiles(fs: FS<Blob>, withDirs: FS<Blob>, templateDir: Path, projectPath: Path,
                           es: seq<Entry>, w: seq<(seq<string>, Blob)>)
    requires Normal(templateDir) && Normal(projectPath)
    requires ParentsExist(fs) && !Exists(fs, projectPath) && withDirs.files == fs.files
    requires !IsPrefix(projectPath, templateDir)
    requires ValidEntries(es) && DistinctDests(es)
    requires forall h :: 0 <= h < |w| ==> |w[h].0| >= 1 && AllPlain(w[h].0)
    ensures var r := WriteAll(CopyEntries(withDirs, templateDir, projectPath, es), projectPath, w);
            Preserves(fs.files, r.fs.files)
  {
    var copied := CopyEntries(withDirs, templateDir, projectPath, es);
    var r := WriteAll(copied, projectPath, w);
    CopyIntoFreshProject(fs, withDirs, templateDir, projectPath, es);
    forall q | q in fs.files ensures q in r.fs.files && r.fs.files[q] == fs.files[q] {
      forall h | 0 <= h < |w| ensures q != JoinSegs(projectPath, w[h].0) {
        NothingUnder(fs, projectPath, w[h].0);
      }
      forall i | 0 <= i < |es| ensures q != DestPath(projectPath, es[i]) {
        NothingUnder(fs, projectPath, es[i].dest);
      }
      WriteAllElsewhere(copied, projectPath, w, q);
    }
  }

  /** `createProjectStructure` once the templates directory is known:
      every manifest file is copied when its source exists, every generated
      file is written, and the files that existed before are untouched. */
  lemma FillStructureWrites(fs: FS<Blob>, withDirs: FS<Blob>, templateDir: Path, projectPath: Path, config: ProjectConfig)
    requires Normal(templateDir) && Normal(projectPath)
    requires ParentsExist(fs) && !Exists(fs, projectPath) && withDirs.files == fs.files
    requires !IsPrefix(projectPath, templateDir)
    requires projectPath in withDirs.dirs && JoinSegs(projectPath, ["frontend"]) in withDirs.dirs
    requires forall g :: 0 <= g < |GeneratedFiles| ==> JoinSegs(projectPath, GeneratedFiles[g]) !in withDirs.dirs
    ensures var r := FillStructure(withDirs, Ok(templateDir), projectPath, config);
            && r.result == Ok(templateDir)
            && CopiedFrom(fs.files, r.fs.files, templateDir, projectPath, Manifest)
            && HoldsWrites(r.fs.files, projectPath, Generated(config))
            && Preserves(fs.files, r.fs.files)
  {
    FillStructureUnfold(withDirs, templateDir, projectPath, config);
    ManifestThenGenerated(fs, withDirs, templateDir, projectPath, config);
  }

  /** The manifest copy followed by the generated writes. */
  lemma ManifestThenGenerated(fs: FS<Blob>, withDirs: FS<Blob>, templateDir: Path, projectPath: Path, config: ProjectConfig)
    requires Normal(templateDir) && Normal(projectPath)
    requires ParentsExist(fs) && !Exists(fs, projectPath) && withDirs.files == fs.files
    requires !IsPrefix(projectPath, templateDir)
    requires projectPath in withDirs.dirs && JoinSegs(projectPath, ["frontend"]) in withDirs.dirs
    requires forall g :: 0 <= g < |GeneratedFiles| ==> JoinSegs(projectPath, GeneratedFiles[g]) !in withDirs.dirs
    ensures var r := WriteAll(CopyEntries(withDirs, templateDir, projectPath, Manifest), projectPath, Generated(config));
            && r.result.Ok?
            && CopiedFrom(fs.files, r.fs.files, templateDir, projectPath, Manifest)
            && HoldsWrites(r.fs.files, projectPath, Generated(config))
            && Preserves(fs.files, r.fs.files)
  {
    ManifestWellFormed();
    GeneratedWellPlaced(withDirs, projectPath, config);
    GeneratedApart(config);
    CopyThenWrite(fs, withDirs, templateDir, projectPath, Manifest, Generated(config));
  }

  /** The structure step is the manifest copy followed by the generated
      writes. */
  lemma FillStructureUnfold(withDirs: FS<Blob>, templateDir: Path, projectPath: Path, config: ProjectConfig)
    requires Normal(templateDir) && Normal(projectPath)
    ensures var written := WriteAll(CopyEntries(withDirs, templateDir, projectPath, Manifest), projectPath, Generated(config));
            FillStructure(withDirs, Ok(templateDir), projectPath, config)
              == Run(written.fs, if written.result.Ok? then Ok(templateDir) else Err(written.result.error))
  {
    CopyTemplatesIsManifest(withDirs, templateDir, projectPath);
  }

  /** What the copy-then-write lemma needs of the generated files. */
  lemma GeneratedWellPlaced(withDirs: FS<Blob>, projectPath: Path, config: ProjectConfig)
    requires Normal(projectPath)
    requires projectPath in withDirs.dirs && JoinSegs(projectPath, ["frontend"]) in withDirs.dirs
    requires forall g :: 0 <= g < |GeneratedFiles| ==> JoinSegs(projectPath, GeneratedFiles[g]) !in withDirs.dirs
    ensures var w := Generated(config);
            && (forall h :: 0 <= h < |w| ==> |w[h].0| >= 1 && AllPlain(w[h].0))
            && (forall h :: 0 <= h < |w| ==> Parent(JoinSegs(projectPath, w[h].0)) in withDirs.dirs)
            && (forall h :: 0 <= h < |w| ==> JoinSegs(projectPath, w[h].0) !in withDirs.dirs)
            && (forall g, h :: 0 <= g < h < |w| ==> JoinSegs(projectPath, w[g].0) != JoinSegs(projectPath, w[h].0))
  {
    var w := Generated(config);
    GeneratedPlain();
    GeneratedParents(projectPath);
    GeneratedDistinct(projectPath, config);
    forall h | 0 <= h < |w|
      ensures |w[h].0| >= 1 && AllPlain(w[h].0)
      ensures Parent(JoinSegs(projectPath, w[h].0)) in withDirs.dirs
      ensures JoinSegs(projectPath, w[h].0) !in withDirs.dirs
    {
      assert w[h].0 == GeneratedFiles[h];
    }
  }

  /** No generated file is a manifest destination or on the way to one. */
  lemma GeneratedApart(config: ProjectConfig)
    ensures var w := Generated(config);
            forall i, h :: 0 <= i < |Manifest| && 0 <= h < |w| ==> !(w[h].0 <= Manifest[i].dest)
  {
    GeneratedNotInManifest();
  }

  lemma GeneratedPlain()
    ensures forall g :: 0 <= g < |GeneratedFiles| ==> |GeneratedFiles[g]| >= 1 && AllPlain(GeneratedFiles[g])
  {
  }

  /** The command on a well-formed file system without the project, when
      the templates directory is found outside the new project: the command
      succeeds exactly when the installs do; every manifest file is copied
      exactly when its template exists, with the template's content; every
      generated file is written; no file that existed before changes. */
  lemma CreateCopiesTemplates(fs: FS<Blob>, cwd: Path, normalizedCliDir: string, name: string, options: CreateOptions,
                              answers: Answers, installs: bool, templateDir: Path)
    requires Normal(cwd) && cwd.absolute
    requires ParentsExist(fs) && !Exists(fs, ProjectPath(cwd, name))
    requires var projectPath := ProjectPath(cwd, name);
             LocateWith(MakeDirs(EnsureDir(fs, projectPath), projectPath, Skeleton), cwd, normalizedCliDir) == Ok(templateDir)
    requires !IsPrefix(ProjectPath(cwd, name), templateDir)
    ensures var projectPath := ProjectPath(cwd, name);
            var r := CreateProjectWith(fs, cwd, normalizedCliDir, name, options, answers, installs);
            Blocked(fs, projectPath) ==> r == Run(fs, Err(MakeDirFailed(NotADirectory(projectPath))))
    ensures var projectPath := ProjectPath(cwd, name);
            var config := GetProjectConfig(name, options, answers);
            var r := CreateProjectWith(fs, cwd, normalizedCliDir, name, options, answers, installs);
            !Blocked(fs, projectPath) ==>
              && (r.result.Ok? <==> installs)
              && (r.result.Err? ==> r.result.error == InstallFailed)
              && CopiedFrom(fs.files, r.fs.files, templateDir, projectPath, Manifest)
              && HoldsWrites(r.fs.files, projectPath, Generated(config))
              && Preserves(fs.files, r.fs.files)
  {
    var projectPath := ProjectPath(cwd, name);
    if !Blocked(fs, projectPath) {
      CreateCopiesUnblocked(fs, cwd, normalizedCliDir, name, options, answers, installs, templateDir);
    }
  }

  /** The lemma above once the project directory can be made. */
  lemma CreateCopiesUnblocked(fs: FS<Blob>, cwd: Path, normalizedCliDir: string, name: string, options: CreateOptions,
                              answers: Answers, installs: bool, templateDir: Path)
    requires Normal(cwd) && cwd.absolute
    requires ParentsExist(fs) && !Exists(fs, ProjectPath(cwd, name)) && !Blocked(fs, ProjectPath(cwd, name))
    requires var projectPath := ProjectPath(cwd, name);
             LocateWith(MakeDirs(EnsureDir(fs, projectPath), projectPath, Skeleton), cwd, normalizedCliDir) == Ok(templateDir)
    requires !IsPrefix(ProjectPath(cwd, name), templateDir)
    ensures var projectPath := ProjectPath(cwd, name);
            var config := GetProjectConfig(name, options, answers);
            var r := CreateProjectWith(fs, cwd, normalizedCliDir, name, options, answers, installs);
            && (r.result.Ok? <==> installs)
            && (r.result.Err? ==> r.result.error == InstallFailed)
            && CopiedFrom(fs.files, r.fs.files, templateDir, projectPath, Manifest)
            && HoldsWrites(r.fs.files, projectPath, Generated(config))
            && Preserves(fs.files, r.fs.files)
  {
    var projectPath := ProjectPath(cwd, name);
    var config := GetProjectConfig(name, options, answers);
    var structure := CreateStructure(EnsureDir(fs, projectPath), cwd, normalizedCliDir, projectPath, config);
    StructureCopiesTemplates(fs, cwd, normalizedCliDir, projectPath, config, templateDir);
    CreateProjectSteps(fs, cwd, normalizedCliDir, name, options, answers, installs);
    assert CreateProjectWith(fs, cwd, normalizedCliDir, name, options, answers, installs).fs.files == structure.fs.files;
  }

  /** Only the install can fail once the project directory can be made
      and the templates are found outside it. */
  lemma CreateOutcomeUnblocked(fs: FS<Blob>, cwd: Path, normalizedCliDir: string, name: string, options: CreateOptions,
                               answers: Answers, installs: bool, templateDir: Path)
    requires Normal(cwd) && cwd.absolute
    requires ParentsExist(fs) && !Exists(fs, ProjectPath(cwd, name)) && !Blocked(fs, ProjectPath(cwd, name))
    requires var projectPath := ProjectPath(cwd, name);
             LocateWith(MakeDirs(EnsureDir(fs, projectPath), projectPath, Skeleton), cwd, normalizedCliDir) == Ok(templateDir)
    requires !IsPrefix(ProjectPath(cwd, name), templateDir)
    ensures var r := CreateProjectWith(fs, cwd, normalizedCliDir, name, options, answers, installs);
            && (r.result.Ok? <==> installs)
            && (r.result.Err? ==> r.result.error == InstallFailed)
  {
    var projectPath := ProjectPath(cwd, name);
    var config := GetProjectConfig(name, options, answers);
    StructureCopiesTemplates(fs, cwd, normalizedCliDir, projectPath, config, templateDir);
    CreateProjectSteps(fs, cwd, normalizedCliDir, name, options, answers, installs);
  }

  /** `createProjectStructure` in a project directory just made on a
      well-formed file system, with the templates found outside it. */
  lemma StructureCopiesTemplates(fs: FS<Blob>, cwd: Path, normalizedCliDir: string, projectPath: Path,
                                 config: ProjectConfig, templateDir: Path)
    requires Normal(cwd) && cwd.absolute && Normal(projectPath)
    requires ParentsExist(fs) && !Exists(fs, projectPath)
    requires LocateWith(MakeDirs(EnsureDir(fs, projectPath), projectPath, Skeleton), cwd, normalizedCliDir) == Ok(templateDir)
    requires !IsPrefix(projectPath, templateDir)
    ensures var structure := CreateStructure(EnsureDir(fs, projectPath), cwd, normalizedCliDir, projectPath, config);
            && structure.result == Ok(templateDir)
            && CopiedFrom(fs.files, structure.fs.files, templateDir, projectPath, Manifest)
            && HoldsWrites(structure.fs.files, projectPath, Generated(config))
            && Preserves(fs.files, structure.fs.files)
  {
    var base := EnsureDir(fs, projectPath);
    var withDirs := MakeDirs(base, projectPath, Skeleton);
    SkeletonHasFrontend(base, projectPath);
    SkeletonLeavesNoDirAtGenerated(fs, projectPath);
    FillStructureWrites(fs, withDirs, templateDir, projectPath, config);
    assert CreateStructure(base, cwd, normalizedCliDir, projectPath, config)
        == FillStructure(withDirs, Ok(templateDir), projectPath, config);
  }

  /** On a well-formed file system without the project, the skeleton step
      leaves no directory where a generated file goes. */
  lemma SkeletonLeavesNoDirAtGenerated<C>(fs: FS<C>, p: Path)
    requires Normal(p) && ParentsExist(fs) && !Exists(fs, p)
    ensures forall g :: 0 <= g < |GeneratedFiles| ==>
              JoinSegs(p, GeneratedFiles[g]) !in MakeDirs(EnsureDir(fs, p), p, Skeleton).dirs
  {
    SkeletonAvoidsGenerated();
    GeneratedPlain();
    forall g | 0 <= g < |GeneratedFiles|
      ensures JoinSegs(p, GeneratedFiles[g]) !in MakeDirs(EnsureDir(fs, p), p, Skeleton).dirs
    {
      SkeletonLeavesNoDirAt(fs, p, GeneratedFiles[g]);
    }
  }

  /** One path of the lemma above: a path inside the new project that
      begins no skeleton directory is still no directory afterwards. */
  lemma SkeletonLeavesNoDirAt<C>(fs: FS<C>, p: Path, segs: seq<string>)
    requires Normal(p) && ParentsExist(fs) && !Exists(fs, p)
    requires |segs| >= 1 && AllPlain(segs)
    requires forall k :: 0 <= k < |Skeleton| ==> !(segs <= Skeleton[k])
    ensures JoinSegs(p, segs) !in MakeDirs(EnsureDir(fs, p), p, Skeleton).dirs
  {
    var q := JoinSegs(p, segs);
    NothingUnder(fs, p, segs);
    JoinPlain(p, segs);
    assert q !in AncestorsAndSelf(p);
    if q in DirsCreated(p, Skeleton) {
      var k :| 0 <= k < |Skeleton| && q in AncestorsAndSelf(JoinSegs(p, Skeleton[k]));
      SkeletonPlain();
      JoinsNested(p, segs, Skeleton[k]);
      assert false;
    }
  }


  lemma SkeletonHasFrontend(fs: FS<Blob>, projectPath: Path)
    requires Normal(projectPath)
    ensures JoinSegs(projectPath, ["frontend"]) in MakeDirs(fs, projectPath, Skeleton).dirs
  {
    assert Skeleton[10] == ["frontend"];
  }

  /** A project named `templates` is created at `<cwd>/templates`, which the
      locator checks first: it picks the new, still empty project directory
      as the templates directory. */
  lemma ProjectNamedTemplates(fs: FS<Blob>, cwd: Path, normalizedCliDir: string)
    requires Normal(cwd) && cwd.absolute
    ensures var projectPath := ProjectPath(cwd, "templates");
            LocateWith(MakeDirs(EnsureDir(fs, projectPath), projectPath, Skeleton), cwd, normalizedCliDir) == Ok(projectPath)
  {
    ParseSingleSegment("templates");
    assert Ups(0) + ["templates"] == ["templates"];
    var projectPath := ProjectPath(cwd, "templates");
    assert projectPath == TemplatesAbove(cwd, 0);
    assert projectPath in AncestorsAndSelf(projectPath);
  }

  /** The skeleton step only creates directories along the way to or
      inside the project: a path that parts from the project directory at
      some segment, and was not there before, is still not there. */
  lemma CreatedOnlyAlongProject<C>(fs: FS<C>, projectPath: Path, c: Path, i: nat)
    requires Normal(projectPath)
    requires i < |c.segs| && i < |projectPath.segs| && c.segs[i] != projectPath.segs[i]
    requires !Exists(fs, c)
    ensures !Exists(MakeDirs(EnsureDir(fs, projectPath), projectPath, Skeleton), c)
  {
    SkeletonPlain();
    if c in DirsCreated(projectPath, Skeleton) {
      var k :| 0 <= k < |Skeleton| && c in AncestorsAndSelf(JoinSegs(projectPath, Skeleton[k]));
      JoinPlain(projectPath, Skeleton[k]);
    }
  }

  /** A project name the examples below use: one plain segment, neither
      `templates` nor containing a backslash. */
  predicate ExampleName(name: string) {
    '/' !in name && '\\' !in name && PlainSegment(name) && name != "templates"
  }

  /** The example project, created from `/home/user`. */
  function ExampleProject(name: string): (r: Path)
    requires PlainSegment(name)
    ensures Normal(r) && r.absolute
  {
    assert forall i :: 0 <= i < 2 ==> PlainSegment(ExampleCwd.segs[i]);
    Path(true, ExampleCwd.segs + [name])
  }

  lemma ExampleProjectPath(name: string)
    requires ExampleName(name)
    ensures ProjectPath(ExampleCwd, name) == ExampleProject(name)
    ensures !Exists(ExampleFs, ExampleProject(name)) && !Blocked(ExampleFs, ExampleProject(name))
  {
    ParseSingleSegment(name);
    JoinPlain(ExampleCwd, [name]);
    NotUnderExample(ExampleProject(name).segs);
  }

  /** The example after the skeleton step. */
  function ExampleWithDirs(name: string): FS<Blob>
    requires PlainSegment(name)
  {
    MakeDirs(EnsureDir(ExampleFs, ExampleProject(name)), ExampleProject(name), Skeleton)
  }

  /** The skeleton step puts nothing where the locator looks near the
      working directory. */
  lemma ExampleSkeletonAvoidsCwd(name: string)
    requires ExampleName(name)
    ensures !Exists(ExampleWithDirs(name), TemplatesAbove(ExampleCwd, 0))
    ensures !Exists(ExampleWithDirs(name), TemplatesAbove(ExampleCwd, 1))
    ensures !Exists(ExampleWithDirs(name), TemplatesAbove(ExampleCwd, 2))
  {
    var p := ExampleProject(name);
    ExampleCwdEmpty();
    ClimbFromPlain(ExampleCwd.segs, 0);
    ClimbFromPlain(ExampleCwd.segs, 1);
    ClimbFromPlain(ExampleCwd.segs, 2);
    CreatedOnlyAlongProject(ExampleFs, p, TemplatesAbove(ExampleCwd, 0), 2);
    CreatedOnlyAlongProject(ExampleFs, p, TemplatesAbove(ExampleCwd, 1), 1);
    CreatedOnlyAlongProject(ExampleFs, p, TemplatesAbove(ExampleCwd, 2), 0);
  }

  /** Nor inside another subdirectory of the working directory. */
  lemma ExampleSkeletonAvoidsSubdir(name: string, n: string)
    requires PlainSegment(name) && n != name
    ensures !Exists(ExampleWithDirs(name), Path(true, ExampleCwd.segs + [n, "templates"]))
  {
    var near := Path(true, ExampleCwd.segs + [n, "templates"]);
    NotUnderExample(near.segs);
    CreatedOnlyAlongProject(ExampleFs, ExampleProject(name), near, 2);
  }

  /** The example tool directory, normalised as written, has a backslash. */
  lemma ExampleAsWrittenName()
    ensures |ExampleCliDir| >= 4 && ExampleCliDir[0] == '/'
    ensures '\\' in NormalizeCliDirAsWritten(ExampleCliDir)
  {
    var joined := JoinWith(ExampleToolSegs, '/');
    assert joined[3] == '/' && |joined| >= 4;
    assert ExampleCliDir[4] == '/';
    assert NormalizeCliDirAsWritten(ExampleCliDir)[3] == '\\';
  }

  /** The command as written, run from `/home/user` for the example tool
      installation, fails for want of a templates directory and writes no
      file, although the tool's templates are installed. */
  lemma CreateProjectMissesExample(fs: FS<Blob>, cwd: Path, cliDir: string, name: string, options: CreateOptions,
                                   answers: Answers, installs: bool)
    requires fs == ExampleFs && cwd == ExampleCwd && cliDir == ExampleCliDir
    requires Normal(cwd) && cwd.absolute && ExampleName(name)
    ensures var r := CreateProject(fs, cwd, cliDir, name, options, answers, installs);
            r.result == Err(TemplatesNotFound) && r.fs.files == fs.files
  {
    ExampleProjectPath(name);
    ExampleAsWrittenName();
    ExampleSkeletonAvoidsCwd(name);
    ExampleSkeletonAvoidsSubdir(name, NormalizeCliDirAsWritten(ExampleCliDir));
    CreateAsWrittenFindsNothingNear(fs, cwd, cliDir, name, options, answers, installs);
  }

  /** The command as written fails for want of templates when, after the
      skeleton step, nothing is in the four places its locator can look,
      unless a file in the way of the project directory stopped it
      earlier. */
  lemma CreateAsWrittenFindsNothingNear(fs: FS<Blob>, cwd: Path, cliDir: string, name: string, options: CreateOptions,
                                        answers: Answers, installs: bool)
    requires Normal(cwd) && cwd.absolute
    requires |cliDir| >= 4 && cliDir[0] == '/'
    requires !Exists(fs, ProjectPath(cwd, name))
    requires var projectPath := ProjectPath(cwd, name);
             var withDirs := MakeDirs(EnsureDir(fs, projectPath), projectPath, Skeleton);
             && !Exists(withDirs, TemplatesAbove(cwd, 0)) && !Exists(withDirs, TemplatesAbove(cwd, 1))
             && !Exists(withDirs, TemplatesAbove(cwd, 2))
             && !Exists(withDirs, Path(true, cwd.segs + [NormalizeCliDirAsWritten(cliDir), "templates"]))
    ensures var projectPath := ProjectPath(cwd, name);
            var r := CreateProject(fs, cwd, cliDir, name, options, answers, installs);
            && r.fs.files == fs.files
            && r.result == (if Blocked(fs, projectPath) then Err(MakeDirFailed(NotADirectory(projectPath)))
                            else Err(TemplatesNotFound))
  {
    var projectPath := ProjectPath(cwd, name);
    AsWrittenFindsNothingNear(MakeDirs(EnsureDir(fs, projectPath), projectPath, Skeleton), cwd, cliDir);
    CreateWithoutTemplates(fs, cwd, NormalizeCliDirAsWritten(cliDir), name, options, answers, installs);
  }

  /** As written, the locator finds nothing when nothing is in the four
      places it can look. */
  lemma AsWrittenFindsNothingNear<C>(fs: FS<C>, cwd: Path, cliDir: string)
    requires Normal(cwd) && cwd.absolute
    requires |cliDir| >= 4 && cliDir[0] == '/'
    requires !Exists(fs, TemplatesAbove(cwd, 0)) && !Exists(fs, TemplatesAbove(cwd, 1))
    requires !Exists(fs, TemplatesAbove(cwd, 2))
    requires !Exists(fs, Path(true, cwd.segs + [NormalizeCliDirAsWritten(cliDir), "templates"]))
    ensures LocateAsWritten(fs, cwd, cliDir) == Err(TemplatesNotFound)
  {
    AsWrittenStaysNearCwd(fs, cwd, cliDir);
  }

  /** With the corrected normalisation the locator finds the example's
      templates after the skeleton step too. */
  lemma ExampleSkeletonKeepsTemplates(cwd: Path, cliDir: string, name: string)
    requires cwd == ExampleCwd && cliDir == ExampleCliDir
    requires Normal(cwd) && cwd.absolute && ExampleName(name)
    ensures LocateWith(ExampleWithDirs(name), cwd, NormalizeCliDir(cliDir)) == Ok(ExampleTemplates)
  {
    ExampleSkeletonAvoidsCwd(name);
    ExampleCliDirParses();
    ExampleSecondCandidate();
    ExampleToolSegsPlain();
    PlainCandidates(ExampleToolSegs, cwd);
    CreatedOnlyAlongProject(ExampleFs, ExampleProject(name), Candidates(Path(true, ExampleToolSegs), cwd)[0], 0);
    SecondCandidateFound(ExampleWithDirs(name), cwd, NormalizeCliDir(cliDir), ExampleTemplates);
  }

  /** The locator returns the second candidate when neither `cwd/templates`
      nor the first candidate exists and the second does. */
  lemma SecondCandidateFound<C>(fs: FS<C>, cwd: Path, normalizedCliDir: string, found: Path)
    requires Normal(cwd) && cwd.absolute
    requires var cs := Candidates(Parse(normalizedCliDir), cwd);
             && !Exists(fs, TemplatesAbove(cwd, 0)) && !Exists(fs, cs[0]) && cs[1] == found && Exists(fs, found)
    ensures LocateWith(fs, cwd, normalizedCliDir) == Ok(found)
  {
    var cs := Candidates(Parse(normalizedCliDir), cwd);
    var r := LocateWith(fs, cwd, normalizedCliDir);
    assert r.Ok? by {
      assert 0 <= 1 < 6 && Exists(fs, cs[1]);
    }
    var i :| 0 <= i < 6 && r.value == cs[i] && Exists(fs, cs[i])
             && forall j :: 0 <= j < i ==> !Exists(fs, cs[j]);
    assert i == 1;
  }

  /** The corrected command finds the example's templates and then fails
      only if the installs do. */
  lemma CreateProjectCorrectedFindsExample(fs: FS<Blob>, cwd: Path, cliDir: string, name: string,
                                           options: CreateOptions, answers: Answers, installs: bool)
    requires fs == ExampleFs && cwd == ExampleCwd && cliDir == ExampleCliDir
    requires Normal(cwd) && cwd.absolute && ExampleName(name)
    ensures var r := CreateProjectCorrected(fs, cwd, cliDir, name, options, answers, installs);
            && (r.result.Ok? <==> installs)
            && (r.result.Err? ==> r.result.error == InstallFailed)
  {
    ExampleCopyApplies(fs, cwd, cliDir, name);
    CorrectedOutcome(fs, cwd, cliDir, name, options, answers, installs, ExampleTemplates);
  }

  /** Once the corrected locator finds a templates directory outside the
      project, only a file in the way of the project directory or the
      install can make the command fail. */
  lemma CorrectedOutcome(fs: FS<Blob>, cwd: Path, cliDir: string, name: string, options: CreateOptions,
                         answers: Answers, installs: bool, templateDir: Path)
    requires Normal(cwd) && cwd.absolute
    requires ParentsExist(fs) && !Exists(fs, ProjectPath(cwd, name))
    requires var projectPath := ProjectPath(cwd, name);
             LocateWith(MakeDirs(EnsureDir(fs, projectPath), projectPath, Skeleton), cwd, NormalizeCliDir(cliDir)) == Ok(templateDir)
    requires !IsPrefix(ProjectPath(cwd, name), templateDir)
    ensures var projectPath := ProjectPath(cwd, name);
            var r := CreateProjectCorrected(fs, cwd, cliDir, name, options, answers, installs);
            && (r.result.Ok? <==> installs && !Blocked(fs, projectPath))
            && (r.result.Err? ==> r.result.error == if Blocked(fs, projectPath) then MakeDirFailed(NotADirectory(projectPath))
                                                   else InstallFailed)
  {
    if !Blocked(fs, ProjectPath(cwd, name)) {
      CreateOutcomeUnblocked(fs, cwd, NormalizeCliDir(cliDir), name, options, answers, installs, templateDir);
    }
  }

  /** The example meets what the copying lemma asks of its layout. */
  lemma ExampleCopyApplies(fs: FS<Blob>, cwd: Path, cliDir: string, name: string)
    requires fs == ExampleFs && cwd == ExampleCwd && cliDir == ExampleCliDir
    requires Normal(cwd) && cwd.absolute && ExampleName(name)
    ensures ParentsExist(fs) && !Exists(fs, ProjectPath(cwd, name)) && !Blocked(fs, ProjectPath(cwd, name))
    ensures var projectPath := ProjectPath(cwd, name);
            && LocateWith(MakeDirs(EnsureDir(fs, projectPath), projectPath, Skeleton), cwd, NormalizeCliDir(cliDir))
                 == Ok(ExampleTemplates)
            && !IsPrefix(projectPath, ExampleTemplates)
  {
    ExampleProjectPath(name);
    ExampleSkeletonKeepsTemplates(cwd, cliDir, name);
    var projectPath := ProjectPath(cwd, name);
    assert ParentsExist(fs) by {
      assert fs.files == map[];
      forall d | d in fs.dirs ensures AncestorsAndSelf(Parent(d)) <= fs.dirs {
        AncestorsOfPrefix(Parent(d), ExampleTemplates);
      }
    }
    assert !IsPrefix(projectPath, ExampleTemplates) by {
      assert projectPath.segs[0] == "home" && ExampleTemplates.segs[0] == "opt";
    }
  }
}
