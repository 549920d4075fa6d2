# ai-impact-tracker, modelled in Dafny

`ai-impact-tracker` is a command-line tool that scaffolds and drives an AI
sustainability dashboard. Its `create` command lays out a new project from a
directory of flat template files; `run` wraps a training script in a Python
tracking script; the seamless `start` command does the same through
`python -c`; `config` reads and saves the tool's settings. The repository
also ships the dashboard itself: a FastAPI backend with users, roles, access
tokens and a metric store, a template variant of that backend that `create`
copies into new projects, and Next.js pages with an authentication context,
a route guard, a user-management panel and their configuration files.

This project models that core as pure Dafny functions over immutable values
and proves what the code promises about it:

- the file system is a map from absolute paths to contents plus a set of
  directories, and paths follow Node's POSIX `path.join`/`path.resolve`
  (`Paths`, `FileSystem`, `TemplateCopy`, `Create`, `DebugCopy`);
- child processes are an oracle that says how the child ended (`Process`,
  `RunAI`, `Seamless`); the command line, the environment and configuration
  files are parameters (`CliArgs`, `CliConfig`);
- database tables are sequences of rows in insertion order, with the column
  constraints as store invariants (`Rows`, `BackendUsers`, `TemplateUsers`,
  `BackendMetrics`, `TemplateMetrics`); hashing and token signing are reduced
  to the laws the services rely on (`Crypto`); every route takes the bearer
  token and the current time and returns the new table or an HTTP error
  (`BackendSecurity`, `BackendAuthRoutes`, `TemplateAuthRoutes`, the seeding
  scripts `BackendSeed` and `TemplateSeed`);
- the React components become state transitions whose backend replies are
  parameters (`AuthContext`, `TemplateAuthContext`, `ProtectedRoute`,
  `UserManagement`, `TemplateUserManagement`), and the dashboards' list
  logic is sequence functions with JavaScript semantics (`JsArray`,
  `Sorting`, `Grouping`, `Paging`, `DashboardPage`, `TemplateDashboardPage`,
  `Text`).

Where the written design and the code disagree, the model follows the code:
a template copy that copies nothing is not an error, and a failed dependency
install during `create` is fatal, because the error is rethrown. The two
defects listed under Findings are modelled as written, and a corrected
variant stands beside each.

## Model

| member | source | states |
|---|---|---|
| Text.OrElse | src/cli/run.ts:59-61 | `value \|\| fallback`: a present non-empty value is kept, anything else falls back |
| Text.Split | src/cli/run.ts:19 | `split(' ')` gives at least one part, none containing the separator, and joining them gives the string back |
| Text.SplitJoin | src/cli/run.ts:19-21 | splitting a join of separator-free parts gives the parts back |
| Text.SplitNoSep | src/cli/run.ts:19-20 | a string without the separator splits into itself alone |
| Text.ReplaceAll | dist/cli/start.js:25 | replacing every occurrence of a character removes it (when the replacement lacks it) and changes the length by the replacement's growth per occurrence; with a one-character replacement every position keeps its character, except that the replaced character becomes the replacement |
| Text.ReplaceAllAppend | dist/cli/start.js:25 | replacing in a concatenation is replacing in each part and concatenating |
| Text.ReplaceAllSplice | dist/cli/start.js:25 | each character is replaced where it stands: the replaced text before it, then the replacement if it is the replaced character and itself otherwise, then the replaced text after it |
| Text.Decimal | dist/cli/config.js:31 | the decimal numeral of a number is a non-empty digit string with that value |
| Text.ParseDecimal | dist/cli/config.js:31 | `parseInt` reads back every decimal numeral, with or without radix 10 and with a leading minus |
| Text.ParseIntSkipsSpace | dist/cli/config.js:31 | `parseInt` skips white space in front of the numeral |
| Text.ParseDigits | dist/cli/config.js:31 | `parseInt` of a digit string is its value, with or without an explicit radix of 10 |
| Text.ParseNegativeDigits | dist/cli/config.js:31 | `parseInt` of a minus sign and digits is the negated value |
| Paths.Append | src/cli/create.ts:140 | `path.join` drops empty and `.` segments, lets `..` remove the last plain segment, and keeps the result normal and as absolute as its base |
| Paths.JoinPlain | src/cli/create.ts:140 | joining plain segments only extends the segment list |
| Paths.Parse | src/cli/create.ts:171-178 | a path string reads as absolute exactly when it starts with `/`, and always reads as a normal path |
| Paths.Join | src/cli/create.ts:171-178 | `path.join` of parts that may contain `/` keeps the base's absoluteness and yields a normal path |
| Paths.Resolve | src/cli/create.ts:15 | resolving against the absolute working directory gives an absolute path and leaves an absolute path unchanged |
| Paths.ParseAbsolute | src/cli/create.ts:171-178 | `/` followed by plain segments joined with `/` reads back as exactly those segments |
| Paths.JoinLiteral | src/cli/create.ts:171-178 | `path.join` with literal parts free of `/` appends them one by one |
| Paths.JoinSegsAppend | src/cli/create.ts:171-178 | joining two lists in turn is joining their concatenation |
| FileSystem.EnsureDir | src/cli/create.ts:140 | once it succeeds, `ensureDir` creates the directory and all its ancestors and touches no file |
| FileSystem.TryEnsureDir | src/cli/create.ts:22 | `ensureDir` fails exactly when a file sits at the path (`EEXIST`) or at one of its ancestors (`ENOTDIR`), and then makes nothing; otherwise it has the effect above |
| FileSystem.EnsureDirIdempotent | src/cli/create.ts:22 | creating a directory that exists changes nothing |
| FileSystem.Copy | src/cli/create.ts:219-221 | for a file source, `fs.copy` puts its content at the destination and keeps every other file; a missing source changes nothing |
| FileSystem.WriteFile | src/cli/create.ts:343 | `writeFile` succeeds exactly when the parent directory exists and the path is no directory, and then sets that one file; onto a directory it fails with `EISDIR`, otherwise with the missing parent |
| FileSystem.Remove | src/cli/run.ts:219 | removing a path deletes it and everything under it and nothing else |
| TemplateCopy.CopyEntries | src/cli/create.ts:216-223 | one copy loop only adds directories |
| TemplateCopy.CopyEntriesAppend | src/cli/create.ts:265-302 | consecutive copy loops are one loop over the concatenated lists |
| TemplateCopy.DestNotSrc | src/cli/create.ts:216-223 | when the project is not the template directory or above it, no destination is a template source |
| TemplateCopy.DestInjective | src/cli/create.ts:216-223 | different manifest destinations are different paths |
| TemplateCopy.CopyEntriesFiles | src/cli/create.ts:216-223 | after the loop each destination holds its template's content when the template exists, is unchanged otherwise, and every other file keeps its content |
| TemplateCopy.CopyEntriesKeeps | src/cli/create.ts:216-223 | the copy loop never removes a file or directory |
| TemplateCopy.CopyEntriesNewPaths | src/cli/create.ts:216-223 | every path the loop creates is a destination or one of its ancestors |
| TemplateCopy.SourceUnaffected | src/cli/create.ts:216-223 | with the template and project directories apart, copying never creates or removes a template |
| TemplateCopy.NestedDirs | src/cli/create.ts:216-223 | a path inside one directory can only lie under a path inside another when one directory contains the other |
| Create.GetProjectConfig | src/cli/create.ts:44-107 | with `--yes`: description "AI Sustainability Dashboard for <name>", SQLite, port 3000 and the eight fixed features; otherwise the prompt answers; name and template always from the arguments |
| Create.YesIgnoresPrompts | src/cli/create.ts:45-97 | `--yes` ignores the prompts and equals accepting every prompt default except for the two extra features (teams, api) the prompt pre-checks |
| Create.SkeletonPlain | src/cli/create.ts:111-137 | every skeleton directory is a non-empty list of plain segments |
| Create.EnsureDirsInOrder | src/cli/create.ts:139-141 | the skeleton loop only adds directories and writes no file |
| Create.MakeDirs | src/cli/create.ts:111-141 | after the skeleton step every listed directory exists under the project and no file changed |
| Create.EnsureDirsInOrderIsMakeDirs | src/cli/create.ts:139-141 | running the `ensureDir` loop in order is the same as adding all the directories at once |
| Create.BackendTemplatesWellFormed | src/cli/create.ts:198-214 | the backend manifest has plain sources, distinct destinations, none under `frontend` |
| Create.FrontendTemplatesWellFormed | src/cli/create.ts:225-249 | the frontend manifest has plain sources and distinct destinations, all under `frontend` |
| Create.FrontendUiWellFormed | src/cli/create.ts:241-248 | the UI component entries all land in `frontend/src/components/ui` |
| Create.RestTemplatesWellFormed | src/cli/create.ts:251-263 | the env, docker and other entries are well formed, outside `frontend` and apart from the backend ones |
| Create.ManifestWellFormed | src/cli/create.ts:198-263 | all five lists together are well formed with no destination repeated |
| Create.GeneratedNotInManifest | src/cli/create.ts:332-479 | no generated file is the destination of a copied template or a directory on the way to one |
| Create.SkeletonAvoidsGenerated | src/cli/create.ts:111-137 | no generated file is a skeleton directory or a directory on the way to one |
| Create.DistinctConcat | src/cli/create.ts:265-302 | lists with distinct destinations that share none concatenate to a list with distinct destinations |
| Create.NormalizeCliDirAsWritten | src/cli/create.ts:164-167 | as written: a directory starting with `/` loses that slash and is one character shorter, with every other `/` turned into `\` and each other character kept in place, so no `/` is left; any other string is unchanged |
| Create.NormalizeCliDir | src/cli/create.ts:164-167 | intended: only a `/C:/…` drive path is rewritten; a POSIX directory is kept |
| Create.Candidates | src/cli/create.ts:171-178 | six fallback candidates, in the source's order, each an absolute normal path |
| Create.FirstExisting | src/cli/create.ts:181-188 | the loop picks the first existing candidate: it exists, none before it does, and none is picked exactly when none exists |
| Create.LocateWith | src/cli/create.ts:148-193 | `cwd/templates` wins when it exists; otherwise success exactly when some candidate exists, with the first such one; failure is the "templates not found" error; a result always exists |
| Create.Locate | src/cli/create.ts:143-193 | the locator with the corrected normalisation returns an existing absolute directory or the not-found error |
| Create.LocateAsWritten | src/cli/create.ts:143-193 | the locator as written returns an existing absolute directory when it succeeds |
| Create.AsWrittenIgnoresToolLocation | src/cli/create.ts:164-178 | as written, a POSIX tool directory makes candidate 1 repeat `cwd/templates`, candidates 5–6 repeat 2–3, and candidate 4 sits in a junk-named folder of the working directory |
| Create.AsWrittenSegment | src/cli/create.ts:164-167 | as written, an absolute directory collapses to one plain segment without `/` |
| Create.ClimbFromSegment | src/cli/create.ts:171-175 | climbing from that one-segment relative path lands one level lower above the working directory than intended |
| Create.ToolRelativeCandidates | src/cli/create.ts:171-178 | with the corrected normalisation the candidates are `templates` one, two and three levels above the tool, then inside it |
| Create.AsWrittenStaysNearCwd | src/cli/create.ts:143-193 | as written, the only directories the locator can return are `templates` in, one or two above the working directory, or in the junk-named folder |
| Create.LocateAsWrittenMissesExample | src/cli/create.ts:164-193 | as written, a tool installed at `/opt/tool/dist/cli` with its templates at `/opt/tool/templates` is not found from `/home/user`, and neither is any other absolute tool directory |
| Create.LocateFindsExample | src/cli/create.ts:171-188 | the corrected locator finds `/opt/tool/templates` in that layout |
| Create.Generated | src/cli/create.ts:307-480 | `createAdditionalFiles` writes the five generated files in the source's order |
| Create.WriteAll | src/cli/create.ts:332-479 | the sequential writes create no directory and can only fail with a write error |
| Create.WriteAllSucceeds | src/cli/create.ts:332-479 | writes to distinct paths that are no directories and whose directories exist all succeed, each path holds its content and every other file is kept |
| Create.WriteAllOntoDirectory | src/cli/create.ts:332-479 | one write onto an existing directory makes the sequence fail |
| Create.GeneratedDistinct | src/cli/create.ts:332-479 | the five generated paths are distinct |
| Create.GeneratedParents | src/cli/create.ts:332-479 | each generated file lies directly in the project or in `frontend` |
| Create.GeneratedWritten | src/cli/create.ts:307-480 | with the project and `frontend` directories present, the generated files are all written exactly when none of their paths is a directory; then each holds its content, and no other file changes either way |
| Create.SetupDatabase | src/cli/create.ts:491-500 | SQLite creates `data` and `backend/data`; any other database changes nothing |
| Create.ProjectPath | src/cli/create.ts:15 | the project path is the name resolved against the working directory |
| Create.CreateProject | src/cli/create.ts:11-42 | as written, the tool's directory normalised as the code does: an existing project path fails with "already exists" and changes nothing; a file on the way to a missing project path makes `ensureDir` fail with `ENOTDIR` and changes nothing; a success carries the project configuration and needs both installs to succeed |
| Create.CreateProjectWith | src/cli/create.ts:11-42 | the command for any normalisation of the tool's directory: the same precheck, the same `ENOTDIR` failure and the same success condition |
| Create.CreateProjectCorrected | src/cli/create.ts:11-42 | with the corrected normalisation: the same precheck, the same `ENOTDIR` failure and the same success condition |
| Create.CreateAfterStructure | src/cli/create.ts:22-33 | a file on the way to the project directory stops the command with `ENOTDIR` and nothing changed; otherwise, once the structure is built, the rest of the command writes no file in the model and can add only the `backend/data` directory: `data` and the ancestors of both database directories already exist from the skeleton |
| Create.SetupDatabaseAddsAtMostBackendData | src/cli/create.ts:491-496 | on a tree that already has the project directory, `backend` and `data`, the database step writes no file and adds at most `backend/data` |
| Create.CreateBuildsSkeleton | src/cli/create.ts:22-26 | once the precheck passes and no file is on the way to the project directory, the project directory and every skeleton directory exist afterwards, even on failure; with such a file the command fails with `ENOTDIR` and changes nothing; for either normalisation of the tool's directory |
| Create.CreateWithoutTemplates | src/cli/create.ts:191-193 | with no templates directory the command fails with that error, or with `ENOTDIR` when a file is on the way to the project directory, and no file has been written; for either normalisation of the tool's directory |
| Create.CreatedOnlyAlongProject | src/cli/create.ts:111-141 | the skeleton step creates only directories on the way to or inside the project, so a path that parts from the project somewhere and was missing stays missing |
| Create.AsWrittenFindsNothingNear | src/cli/create.ts:143-193 | as written, the locator fails when nothing is in the four places near the working directory it can look |
| Create.CreateAsWrittenFindsNothingNear | src/cli/create.ts:11-42 | as written, the command then fails with "templates not found", or with `ENOTDIR` when a file is on the way to the project directory, and writes no file |
| Create.CreateProjectMissesExample | src/cli/create.ts:11-42 | as written, creating a project with a plain name other than `templates` from `/home/user` with the tool at `/opt/tool/dist/cli` and its templates at `/opt/tool/templates` fails with "templates not found" and writes no file |
| Create.SecondCandidateFound | src/cli/create.ts:181-188 | the locator returns the second candidate when `cwd/templates` and the first candidate are missing and the second exists |
| Create.ExampleSkeletonKeepsTemplates | src/cli/create.ts:143-193 | with the corrected normalisation the example's templates are still found after the skeleton step |
| Create.CreateProjectCorrectedFindsExample | src/cli/create.ts:11-42 | the corrected command in that layout finds the templates and fails only when the installs fail |
| Create.ExampleCopyApplies | src/cli/create.ts:143-193 | the example layout is empty of files, lacks the new project, places the templates outside it, and the corrected locator finds them after the skeleton step |
| Create.CorrectedOutcome | src/cli/create.ts:11-42 | with the corrected normalisation and the templates found outside the new project, the command succeeds exactly when the installs do and no file is on the way to the project directory; otherwise it reports `ENOTDIR` for such a file, else the install failure |
| Create.CreateStructure | src/cli/create.ts:143-304 | every directory the skeleton step made, and every one there before, is still there afterwards; without a templates directory nothing but the skeleton is made and the error is "templates not found" |
| Create.CopyTemplatesIsManifest | src/cli/create.ts:265-302 | the five copy loops together are one loop over the whole manifest |
| Create.CopyIntoFreshProject | src/cli/create.ts:216-302 | into a project that did not exist, each destination holds its template exactly when the template exists, and every other file is as it was |
| Create.CopyThenWrite | src/cli/create.ts:265-304 | copying and then writing files that are no copy destination, no directory on the way to one and no existing directory keeps the copies, holds the writes and keeps every earlier file |
| Create.CopiesLeaveNoDirAtWrites | src/cli/create.ts:265-302 | the copy loops make no directory at a generated path that was not one before |
| Create.SkeletonLeavesNoDirAtGenerated | src/cli/create.ts:22-26 | on a well-formed tree lacking the project, making the project and its skeleton leaves no directory at any generated path |
| Create.FillStructureWrites | src/cli/create.ts:143-304 | once the templates directory is known, and no generated path is a directory, every manifest file is copied when its template exists, every generated file is written, and existing files are untouched |
| Create.FillStructureUnfold | src/cli/create.ts:265-304 | the structure step is the manifest copy followed by the generated writes |
| Create.CreateCopiesTemplates | src/cli/create.ts:11-42 | with a file on the way to the project directory the command fails with `ENOTDIR` and changes nothing; otherwise, with the templates found outside the new project, it succeeds exactly when the installs do, copies every existing template, writes every generated file and changes no existing file; for either normalisation of the tool's directory |
| Create.ProjectNamedTemplates | src/cli/create.ts:149-153 | a project named `templates` is picked as its own (empty) templates directory; for either normalisation of the tool's directory |
| DebugCopy.TargetProject | debug-copy-templates.js:10 | the target project is the first argument when non-empty, else "test13", so never empty |
| DebugCopy.DebugManifestValid | debug-copy-templates.js:21-60 | every listed source is a single plain file name and every destination a relative path of plain segments |
| DebugCopy.DebugManifestDistinct | debug-copy-templates.js:21-60 | no two listed files share a destination |
| DebugCopy.TemplateDir | debug-copy-templates.js:9 | the template directory is a normal path |
| DebugCopy.TargetDir | debug-copy-templates.js:18 | the target directory is a normal path, absolute exactly when the script's directory is |
| DebugCopy.CopyAndReport | debug-copy-templates.js:65-75 | the loop copies exactly as the template copier does and prints one report line per listed file |
| DebugCopy.UsageUnreachable | debug-copy-templates.js:12-16 | the usage error can never be reached, because the target falls back to a non-empty default |
| DebugCopy.ReportMatchesSources | debug-copy-templates.js:69-74 | with the two directories apart, each file is reported copied exactly when its template existed before the loop, and missing otherwise |
| DebugCopy.SiblingTarget | debug-copy-templates.js:18 | for a plain target name the target directory is the script directory's sibling of that name |
| DebugCopy.SiblingApart | debug-copy-templates.js:9-18 | the sibling target and the script's `templates` directory are apart unless the target has the repository's own name |
| DebugCopy.CopyAndReportApart | debug-copy-templates.js:65-75 | with the directories apart, each report line says whether the template existed, and every existing template's content is at its destination |
| DebugCopy.DebugCopyReports | debug-copy-templates.js:1-83 | run from a repository with a plain target name other than the repository's own, the script never stops at the usage check, reports each file truthfully and delivers every existing template |
| Process.Settle | src/cli/run.ts:192-202 | the child's promise resolves exactly when it closes with code 0; another code rejects with that code; a spawn error rejects |
| RunAI.ParseScript | src/cli/run.ts:19-21 | `split(' ')`: command and arguments contain no space and re-joined with single spaces give the script back |
| RunAI.ParseScriptOfJoin | src/cli/run.ts:19-21 | a command and arguments free of spaces, joined and split again, come back unchanged |
| RunAI.Attribute | src/cli/run.ts:59-61 | project, team and environment are the given non-empty values, otherwise "default", "default" and "development"; none is ever empty |
| RunAI.TempScriptPath | src/cli/run.ts:179 | the wrapper lives at `temp_tracking_script.py` directly in the working directory |
| RunAI.CreateTrackingWrapper | src/cli/run.ts:58-183 | the wrapper for the script and its attribution is written to the temporary path; the write succeeds exactly when the working directory exists and no directory has the script's name, and such a directory fails it with `EISDIR` |
| RunAI.RunTrackingScript | src/cli/run.ts:206-234 | the temporary script is gone whether the child closes or fails to start; the run succeeds exactly on exit code 0 |
| RunAI.Lift | src/cli/run.ts:52-55 | errors are rethrown: the outcome succeeds exactly when the inner step did |
| RunAI.Run | src/cli/run.ts:14-56 | a dry run changes nothing and succeeds; an untracked run spawns the command only when it is non-empty and succeeds when that exits 0; a tracked run succeeds exactly when the working directory exists, no directory has the wrapper's name and the wrapper exited 0; when the wrapper was written it is removed afterwards, when it could not be nothing is spawned and nothing changes, and every other file is kept |
| RunAI.Dispatch | src/cli/run.ts:23-40 | a dry run only describes, whatever `track` says; without one, tracking is off exactly when `track` is `false` |
| RunAI.DryRunSpawnsNothing | src/cli/run.ts:23-30 | a dry run does not depend on any child process |
| RunAI.EmptyUntrackedSpawnsNothing | src/cli/run.ts:33-39 | an empty untracked command spawns nothing and succeeds |
| RunAI.TrackedRunRestores | src/cli/run.ts:43-48 | with nothing at the temporary path beforehand, a tracked run leaves the file system as it found it, whether or not the working directory exists |
| CliArgs.CommanderOptions | src/cli.ts:34-39 | project, team and environment default to "default", "default", "development"; `--no-track` sets track false, otherwise true; dry-run is present only when given |
| CliArgs.Peel | src/cli.ts:57-68 | when the guard holds, the last three arguments become project, team and environment and are removed; otherwise nothing changes |
| CliArgs.PeelAppended | src/cli.ts:57-68 | any three words appended to any argument list are taken back exactly, unless the guard's two words sit in their places |
| CliArgs.RunCall | src/cli.ts:70-77 | `runAI` gets the remaining arguments joined by spaces and non-empty project, team and environment; config, track and dry-run pass through |
| CliArgs.RunAction | src/cli.ts:41-77 | without peeling, the run is attributed exactly as `runAI` would attribute the flags alone |
| CliArgs.TrailingWordsAttribute | src/cli.ts:57-77 | `<cmd> <args…> <p> <t> <e>` reaches `runAI` as the command and its arguments, attributed to the three trailing words |
| CliArgs.ThreeWordsLeaveNoCommand | src/cli.ts:57-70 | a three-word command line that passes the guard leaves an empty script |
| CliArgs.FourWordScriptMisread | src/cli.ts:57-70 | `python train.py --epochs 5` runs `python` alone, attributed to project `train.py`, team `--epochs`, environment `5` |
| Seamless.ResolveMetadata | dist/cli/start.js:3-5 | project, team and environment keep given non-empty values and otherwise fall back to "default", "default", "development"; none is empty |
| Seamless.ReadQuoted | dist/cli/start.js:123 | reading the single-quoted Python literal the wrapper embeds always consumes at least the closing quote |
| Seamless.EscapeQuotesAsWritten | dist/cli/start.js:25 | as written: the escaped text is longer by the number of quotes, and a script without quotes is unchanged |
| Seamless.EscapeQuotesAsWrittenAt | dist/cli/start.js:25 | character by character: each script character stands after the escaped text before it, a quote as `\'` and any other character unchanged |
| Seamless.EscapePython | dist/cli/start.js:25 | the corrected escaping never emits a raw line end and never shortens the script |
| Seamless.EscapePythonRoundTrip | dist/cli/start.js:25 | `'<escaped script>'` read as Python gives the script back and resumes right after the closing quote |
| Seamless.AsWrittenAgrees | dist/cli/start.js:25 | for scripts without backslashes or line ends the written escaping is the full escaping |
| Seamless.AsWrittenRoundTrip | dist/cli/start.js:25 | so for those scripts the embedded literal reads back as the script |
| Seamless.AsWrittenTrailingBackslash | dist/cli/start.js:25 | the script `a\` escaped as written leaves an unterminated literal, while the corrected escaping reads back as `a\` |
| Seamless.CreateSeamlessWrapper | dist/cli/start.js:24-26 | as written: the wrapper carries the metadata and the script with only its quotes escaped; its literal reads back as the script when the script has no backslash and no line end |
| Seamless.WrapperLosesTrailingBackslash | dist/cli/start.js:24-26 | for the script `a\` the wrapper's literal does not read back, while the corrected wrapper's reads back as `a\` |
| Seamless.CorrectedSeamlessWrapper | dist/cli/start.js:24-26 | corrected: whatever the script holds, the literal reads back as exactly the script |
| Seamless.EnsureDependencies | dist/cli/start.js:193-248 | a check exiting 0 resolves without pip; otherwise pip is spawned and the step resolves exactly when pip exits 0 |
| Seamless.NestedCommandWords | dist/cli/start.js:196-207 | a quote-free script wrapped as `python -c "…"` and handed to `python -c` through the shell reaches Python as the program `python`, with the script left over as a further argument |
| Seamless.CheckAsWritten | dist/cli/start.js:196-207 | as written: the dependency check exits 1 whether or not the packages are installed |
| Seamless.CheckCorrected | dist/cli/start.js:196-207 | corrected: the check exits 0 exactly when the packages are installed, and 1 otherwise |
| Seamless.CheckAsWrittenAlwaysInstalls | dist/cli/start.js:193-221 | as written: with auto-install pip is spawned on every start, even with the packages installed, and a pip failure then fails the start |
| Seamless.CheckCorrectedSkipsPip | dist/cli/start.js:193-221 | with the corrected check installed packages resolve the step with no pip, and missing ones lead to pip |
| Seamless.StartSeamless | dist/cli/start.js:2-26 | the check comes first only with auto-install; pip runs only after a failed check; the wrapper runs unless the install failed; success needs dependencies in place and the wrapper to exit 0; the wrapper run is the one built, as written, from the script and the metadata |
| Seamless.StartSeamlessCorrected | dist/cli/start.js:2-26 | with the corrected wrapper the same number of children run with the same outcome, and the wrapper run carries the metadata and exactly the script |
| CliConfig.Initial | dist/cli/config.js:4-14 | a new manager starts with `http://localhost:8000`, timeout 5000, no API key and no other key |
| CliConfig.LoadFromEnvironment | dist/cli/config.js:20-33 | a set, non-empty variable replaces its field, the timeout read with `parseInt(…, 10)`; everything else stays |
| CliConfig.Merge | dist/cli/config.js:38 | the spread replaces whole top-level keys: a file's `dashboard` replaces the whole object and other keys are united with the file's winning |
| CliConfig.LoadFromFile | dist/cli/config.js:34-44 | a parsed file is merged on top; a missing or unreadable file changes nothing |
| CliConfig.LoadConfig | dist/cli/config.js:15-19 | a file with a `dashboard` key wins over the environment; otherwise the environment overrides stay in force |
| CliConfig.GetDashboardConfig | dist/cli/config.js:55-58 | the file's `dashboard` object when the file has one; otherwise each field from its set, non-empty variable (the timeout through `parseInt`), else the manager's value; the other keys are the manager's with the file's on top, and the manager keeps what it returns |
| CliConfig.LoadDefaults | dist/cli/config.js:4-19 | with no variables and no file the defaults load unchanged |
| CliConfig.LoadConfigIdempotent | dist/cli/config.js:15-19 | loading twice with the same environment and file equals loading once |
| CliConfig.MergeTwice | dist/cli/config.js:38 | merging the same partial twice changes nothing more; two merges are one merge of the combined partial |
| CliConfig.SaveConfig | dist/cli/config.js:45-54 | success exactly when everything was written; a failed directory step keeps the configuration; otherwise it becomes the merge, and exactly that is written |
| CliConfig.SaveThenLoad | dist/cli/config.js:45-58 | a file that reads back exactly what was saved gives the saved `dashboard` object back |
| CliConfig.ThroughJson | dist/cli/config.js:49 | writing JSON turns a timeout that is not a number into `null`, read back as no timeout; every other field and key survives unchanged |
| CliConfig.SaveThenLoadJson | dist/cli/config.js:45-58 | saved through JSON and loaded back, the URL and API key return; the whole `dashboard` object returns unless its timeout was not a number, which comes back missing |
| Rows.First | backend/core/security.py:49 | `.first()` returns the first matching row: it matches, none before it does, and nothing is returned exactly when no row matches |
| Rows.Start | backend/api/routes/metrics.py:54 | an offset within the table starts there; a negative offset starts at the first row |
| Rows.Window | backend/api/routes/metrics.py:54-55 | `.offset(skip).limit(limit)` returns the rows from the offset on, in order, at most `limit` of them, all of them for a negative limit |
| Rows.WindowsTile | backend/api/routes/metrics.py:54-55 | the first `a` rows followed by the next `b` are the first `a + b` |
| Rows.NextId | backend/api/models/user.py:14 | a new row's id is one more than the largest id in use (1 in an empty table), so it is larger than every id in use |
| Crypto.HashPassword | backend/core/security.py:23-25 | a fresh digest is never the empty placeholder and accepts its own password |
| Crypto.VerifyHash | backend/core/security.py:19-25 | a digest accepts the password it was made from and no other |
| Crypto.Decode | backend/core/security.py:39-45 | a token decodes only when signed with the key and not yet expired |
| Crypto.DecodeEncode | backend/core/security.py:27-45 | decoding gives back exactly the encoded claims until they expire, and nothing afterwards |
| BackendUsers.RoleValue | backend/api/models/user.py:6-9 | every role is stored as "admin", "viewer" or "developer" |
| BackendUsers.RoleValueInjective | backend/api/models/user.py:6-9 | different roles have different stored values |
| BackendUsers.ByUsernameUnique | backend/api/models/user.py:15 | with unique usernames a username picks out exactly its row |
| BackendUsers.Respond | backend/api/schemas/user.py:37-48 | the response carries every field of the row except the password digest, unchanged |
| BackendSecurity.CreateAccessToken | backend/core/security.py:27-37 | the token names its subject and expires after the given delta, or after 480 minutes when none (or a zero one) is given; it decodes until then |
| BackendSecurity.VerifyToken | backend/core/security.py:39-45 | claims come back exactly for a token signed with the key and not expired |
| BackendSecurity.AuthenticateUser | backend/core/security.py:47-56 | only an active user of that name whose digest accepts the password is returned |
| BackendSecurity.AuthenticateUserIff | backend/core/security.py:47-56 | with unique usernames, authentication succeeds exactly for such a user |
| BackendSecurity.GetCurrentUser | backend/core/security.py:58-72 | the current user is the active user named by the subject of a valid, unexpired token; no valid token, no user |
| BackendSecurity.IssuedTokenIdentifies | backend/core/security.py:27-72 | a token issued for an active user identifies exactly that user until it expires, and nobody afterwards |
| BackendSecurity.RequireAuth | backend/core/security.py:74-83 | 401 exactly when there is no current user, otherwise that user |
| BackendSecurity.RequireRole | backend/core/security.py:85-93 | passes exactly an authenticated user with the required role or admin; otherwise 403 (401 first when unauthenticated) |
| BackendSecurity.RequireRoles | backend/core/security.py:95-103 | passes exactly an authenticated user whose role is allowed or admin; otherwise 403 |
| BackendSecurity.RequireRoleIsRequireRoles | backend/core/security.py:85-103 | one required role behaves as the one-element allowed list |
| BackendSecurity.AdminPassesEveryGate | backend/core/security.py:98 | an authenticated admin passes every role gate |
| BackendAuthRoutes.Login | backend/api/routes/auth.py:35-65 | any refusal is "Incorrect username or password"; a success is an active user who awaits setup or gave the right password, with a bearer token for that user lasting 480 minutes |
| BackendAuthRoutes.LoginIff | backend/api/routes/auth.py:38-54 | login succeeds exactly for an active user of that name who awaits setup or gives the right password |
| BackendAuthRoutes.LoginTokenAuthenticates | backend/api/routes/auth.py:56-59 | the login token makes its user the current user for the next 480 minutes |
| BackendAuthRoutes.PlaceKeepsValid | backend/api/routes/auth.py:134-148 | replacing a row by one that clashes with no other row keeps the table's constraints |
| BackendAuthRoutes.AppendKeepsValid | backend/api/routes/auth.py:89-101 | appending a row with a fresh id, username and e-mail keeps the table's constraints |
| BackendAuthRoutes.Register | backend/api/routes/auth.py:67-103 | for admins and developers: success exactly when the username is free and a given e-mail is free; refusals are 400; the new row has an empty password, awaits setup and copies the request's fields |
| BackendAuthRoutes.RegisterDefaults | backend/api/schemas/user.py:5-11 | registering with only the required fields adds an active viewer without e-mail who awaits setup |
| BackendAuthRoutes.Apply | backend/api/routes/auth.py:134-145 | each field sent replaces the stored one, a password is stored hashed, unsent fields stay, and the setup flag never changes |
| BackendAuthRoutes.ApplyNothing | backend/api/routes/auth.py:134-145 | an empty update changes nothing |
| BackendAuthRoutes.Collides | backend/api/models/user.py:15-16 | an update that does not collide shares no username or e-mail with another row |
| BackendAuthRoutes.UpdateUser | backend/api/routes/auth.py:119-150 | for admins: an unknown id gives 404; a success updates exactly that row in place and keeps the table valid |
| BackendAuthRoutes.RemoveKeepsValid | backend/api/routes/auth.py:166-167 | removing a row keeps the table valid and leaves exactly the rows with other ids |
| BackendAuthRoutes.DeleteUser | backend/api/routes/auth.py:152-169 | for admins: an unknown id gives 404; otherwise exactly the rows with other ids remain |
| BackendAuthRoutes.SetupPassword | backend/api/routes/auth.py:171-192 | success exactly for an authenticated user awaiting setup; otherwise 400 "Password already set up"; the new password is stored hashed and the flag cleared |
| BackendAuthRoutes.SetupThenLogin | backend/api/routes/auth.py:171-192 | after setup the user logs in with the new password and no other |
| BackendAuthRoutes.SetupOnlyOnce | backend/api/routes/auth.py:180-184 | a second setup with the same token is refused |
| BackendSeed.CreateDefaultUsers | backend/init_users.py:16-64 | nothing happens when any user exists; otherwise exactly the active admin and developer are created with their passwords hashed and set up |
| BackendSeed.SeedIdempotent | backend/init_users.py:24-27 | seeding twice gives the same table as seeding once |
| BackendSeed.SeededAdminLogin | backend/init_users.py:30-38 | on a fresh table the seeded admin logs in with "admin123" and nothing else |
| BackendMetrics.GetOrCreateProject | backend/api/routes/metrics.py:13-18 | afterwards a project of that name exists with the returned id; an existing one is reused unchanged, otherwise exactly one row is appended |
| BackendMetrics.GetOrCreateTeam | backend/api/routes/metrics.py:21-27 | the team of that name in that project exists afterwards with the returned id; one is created only when missing |
| BackendMetrics.CreateMetric | backend/api/routes/metrics.py:10-43 | the metric is appended under its project and, for a non-empty team name, that team; readings and environment are copied; no project or team is lost |
| BackendMetrics.CreateMetricReusesProject | backend/api/routes/metrics.py:13-14 | a metric for an existing project adds no project and points at that one |
| BackendMetrics.View | backend/api/routes/metrics.py:61-75 | a row's view keeps its fields, names a missing project "Unknown" and a missing team none |
| BackendMetrics.GetMetrics | backend/api/routes/metrics.py:45-78 | the view of each row of the window, in order, at most `limit` rows |
| BackendMetrics.GetMetricsDefaults | backend/api/routes/metrics.py:46 | with the defaults at most the first 100 metrics come back |
| BackendMetrics.CreatedMetricListed | backend/api/routes/metrics.py:10-78 | the metric just created is listed at its position, named after its project |
| TemplateUsers.ByUsernameUnique | templates/backend_core_database_models.py:10 | with unique usernames a username picks out exactly its row |
| TemplateUsers.Respond | templates/backend_api_schemas_user.py:28-31 | the response carries every column of the row except the digest |
| TemplateAuthRoutes.IssueToken | templates/backend_api_routes_auth.py:117-120 | the login token names the user and decodes for the configured number of minutes |
| TemplateAuthRoutes.CurrentUser | templates/backend_api_routes_auth.py:16-39 | the user named by a decodable token's subject; otherwise 401 "Could not validate credentials"; whether the user is active is not checked |
| TemplateAuthRoutes.InactiveUserAuthenticates | templates/backend_api_routes_auth.py:32-39 | a deactivated user's token still identifies them |
| TemplateAuthRoutes.AdminUser | templates/backend_api_routes_auth.py:41-48 | passes exactly a current user with role "admin"; otherwise 403 "Not enough permissions" |
| TemplateAuthRoutes.AdminOrDeveloperUser | templates/backend_api_routes_auth.py:50-57 | passes exactly a current admin or developer; otherwise 403 |
| TemplateAuthRoutes.RequireRoles | templates/backend_api_routes_auth.py:59-92 | passes exactly a current user whose role is listed or "admin"; otherwise 403 |
| TemplateAuthRoutes.GatesAreRequireRoles | templates/backend_api_routes_auth.py:41-92 | the admin gate is `require_roles` with no role and the admin-or-developer gate is `require_roles` with "developer" |
| TemplateAuthRoutes.Login | templates/backend_api_routes_auth.py:94-122 | any refusal is "Incorrect username or password"; a success is an active user who awaits setup or gave the right password, with a bearer token and the user |
| TemplateAuthRoutes.LoginIff | templates/backend_api_routes_auth.py:97-115 | login succeeds exactly for an active user of that name who awaits setup or gives the right password |
| TemplateAuthRoutes.LoginTokenAuthenticates | templates/backend_api_routes_auth.py:117-122 | the login token identifies its user until it expires |
| TemplateAuthRoutes.AppendKeepsValid | templates/backend_api_routes_auth.py:149-161 | appending a row with fresh id, username and e-mail keeps the table's constraints |
| TemplateAuthRoutes.Register | templates/backend_api_routes_auth.py:124-163 | for admins and developers: success exactly when the username and a given e-mail are free; a taken one is 400, but a repeated empty e-mail skips the check and fails in the database; the new user has no password and awaits setup |
| TemplateAuthRoutes.RegisterDefaults | templates/backend_api_schemas_user.py:5-11 | registering with only the required fields adds an active "user" without e-mail or password |
| TemplateAuthRoutes.SetupPassword | templates/backend_api_routes_auth.py:165-186 | success exactly for a current user awaiting setup; otherwise 400 "Password already set"; the password is stored hashed and the flag cleared |
| TemplateAuthRoutes.SetupThenLogin | templates/backend_api_routes_auth.py:165-186 | after setup an active user logs in with the new password and no other |
| TemplateAuthRoutes.SetupOnlyOnce | templates/backend_api_routes_auth.py:174-178 | a second setup with the same token is refused |
| TemplateAuthRoutes.GetUsers | templates/backend_api_routes_auth.py:193-200 | for admins, every user in table order; otherwise the gate's error |
| TemplateAuthRoutes.GetUser | templates/backend_api_routes_auth.py:202-215 | for admins, the user with that id exactly when one exists, otherwise 404; non-admins get 401 or 403 |
| TemplateSeed.DefaultUsers | templates/backend_init_users.py:31-59 | three active users with passwords set, distinct usernames and e-mail addresses |
| TemplateSeed.CreateDefaultUsers | templates/backend_init_users.py:16-65 | nothing happens when a user "admin" exists; otherwise admin, developer and manager are appended, unless one clashes with an existing row and the commit fails |
| TemplateSeed.SeedIdempotent | templates/backend_init_users.py:25-28 | after a successful seeding a second run changes nothing |
| TemplateSeed.SeededManagerLogin | templates/backend_init_users.py:50-58 | on an empty table the seeded manager logs in with "manager123" and nothing else |
| TemplateMetrics.OwnedBy | templates/backend_api_routes_metrics.py:19 | the metrics of a user are exactly the rows with that owner |
| TemplateMetrics.Listing | templates/backend_api_routes_metrics.py:19-20 | the listing holds exactly the user's metrics, each as often as stored, newest first |
| TemplateMetrics.GetMetrics | templates/backend_api_routes_metrics.py:14-20 | exactly the current user's metrics, each once, newest first; 401 without a current user |
| TemplateMetrics.CreateMetric | templates/backend_api_routes_metrics.py:22-44 | a new row with a fresh id copies the input's fields and is owned by the current user |
| TemplateMetrics.CreateMetricDefaults | templates/backend_api_schemas_metrics.py:5-13 | a metric created without an environment is filed under "development" |
| TemplateMetrics.CreatedMetricListed | templates/backend_api_routes_metrics.py:14-44 | the metric just created shows up in its creator's listing |
| TemplateMetrics.Sample | templates/backend_api_routes_metrics.py:61-98 | a sample has one of the four projects and three environments, a duration of 1 to 3600 seconds, and a timestamp within the last 30 days 23 hours 59 minutes; energy is drawn from 0.1 to 10, water from 0.1 to 5, emissions are half the energy, and both a GPU and a CPU part are recorded |
| TemplateMetrics.SampleSplitsEnergy | templates/backend_api_routes_metrics.py:83-85 | a sample's GPU and CPU parts add up to its energy, both are positive, and the GPU part is the larger |
| TemplateMetrics.ScaleBetween | templates/backend_api_routes_metrics.py:83-84 | a GPU share drawn above one half puts the GPU part strictly between half the energy and the whole of it |
| TemplateMetrics.Half | templates/backend_api_routes_metrics.py:75 | the emissions are exactly half the energy |
| TemplateMetrics.Samples | templates/backend_api_routes_metrics.py:61-100 | one sample per remaining draw, numbered in order |
| TemplateMetrics.GenerateSampleData | templates/backend_api_routes_metrics.py:46-106 | for the current user, 50 such samples are appended with fresh ids and the message "Generated 50 sample metrics" |
| Sorting.Insert | frontend/src/app/page.tsx:115-118 | inserting into a sorted list keeps it sorted and adds exactly that element |
| Sorting.SortBy | frontend/src/app/page.tsx:113-118 | `.slice().sort(by time)` is sorted and a permutation of its input |
| Sorting.InsertStable | frontend/src/app/page.tsx:115-118 | inserting goes after every element with the same key, so those keep their order and the new one comes last among them |
| Sorting.SortByStable | frontend/src/app/page.tsx:113-118 | the sort is stable, as `Array.prototype.sort` is: for every timestamp, the entries carrying it come out in their original order, which decides which sessions the trend shows when timestamps tie |
| JsArray.Clamp | frontend/src/app/page.tsx:119 | a `slice` index counts from the end when negative and is clamped to the array |
| JsArray.Slice | frontend/src/app/page.tsx:486 | `slice(start, end)` returns the elements between the clamped indices, in order, none when the end comes first |
| JsArray.SliceLast | frontend/src/app/page.tsx:119 | `slice(-n)` is the last `n` elements, or all when there are fewer |
| JsArray.Reverse | frontend/src/app/page.tsx:486 | `slice().reverse()` is the array in reverse order |
| JsArray.ReverseReverse | frontend/src/app/page.tsx:486 | reversing twice gives the array back |
| Grouping.Keys | frontend/src/app/page.tsx:393 | the group keys are distinct and are exactly the keys of the items |
| Grouping.Members | frontend/src/app/page.tsx:393 | a group holds exactly the items with its key |
| Grouping.Group | frontend/src/app/page.tsx:393-401 | one group per distinct key, in order of first appearance, with its items |
| Grouping.TotalAppend | frontend/src/app/page.tsx:393 | a new item adds one to the total of the groups of its key and nothing to others |
| Grouping.MembersOfAbsentKey | frontend/src/app/page.tsx:393 | a key no item has holds no items |
| Grouping.GroupSizesSum | frontend/src/app/page.tsx:393-401 | every item is in exactly one group: the group sizes add up to the number of items |
| Grouping.DistinctSize | frontend/src/app/page.tsx:480 | a list without repeats has as many elements as its set |
| Grouping.DistinctCountsGroups | frontend/src/app/page.tsx:480 | the set of keys has one element per group |
| Paging.TotalPages | frontend/src/app/page.tsx:483 | `ceil(n / 5)`: the fewest pages of five that hold all items; none exactly when there are no items |
| Paging.PageOf | frontend/src/app/page.tsx:484-486 | a page holds at most five items, those from its start on; pages with a button are non-empty and full except possibly the last; later pages are empty |
| Paging.ItemOnItsPage | frontend/src/app/page.tsx:483-486 | every item appears on the page its position gives, and that page has a button |
| Paging.ShowControlsIff | frontend/src/app/page.tsx:761 | the pager is shown exactly when there are more than five items |
| Paging.RangeLabel | frontend/src/app/page.tsx:764-765 | on an existing page "Showing a-b of n" has 1 ≤ a ≤ b ≤ n |
| Paging.RangeLabelCountsPage | frontend/src/app/page.tsx:764-765 | the label counts exactly the items on the page |
| Paging.Step | frontend/src/app/page.tsx:770-806 | Previous and Next move one page and stop at the first and last page; a numbered button jumps to its page; the page always stays in range |
| DashboardPage.CurrentSessions | frontend/src/app/page.tsx:484-486 | page `p` lists the sessions from the newest on, five per page; an existing page is non-empty and a later one empty |
| DashboardPage.FirstPageStartsWithLatest | frontend/src/app/page.tsx:486 | the first page opens with the last metric fetched |
| DashboardPage.SortedSuffix | frontend/src/app/page.tsx:113-119 | the tail of a time-sorted list is sorted and nothing before it is later than its first element |
| DashboardPage.LastTenAreLatest | frontend/src/app/page.tsx:113-119 | the last ten of the time-sorted metrics are in order and no other metric is later than the first of them |
| DashboardPage.TrendData | frontend/src/app/page.tsx:113-119 | the energy chart shows min(n, 10) sessions, oldest first, taken from the metrics, and none left out is later than the first shown |
| DashboardPage.Counts | frontend/src/app/page.tsx:394-401 | one bar per given project, carrying its number of sessions |
| DashboardPage.CountsNameProjects | frontend/src/app/page.tsx:393-401 | the bars name every project and no other |
| DashboardPage.ProjectSessions | frontend/src/app/page.tsx:393-401 | one bar per distinct project, names not repeated, each with its number of sessions |
| DashboardPage.SumCounts | frontend/src/app/page.tsx:399 | the bars' session counts add up to the total of the groups |
| DashboardPage.SessionCountsSum | frontend/src/app/page.tsx:393-401 | the session counts of the bars add up to the number of metrics |
| DashboardPage.UniqueProjects | frontend/src/app/page.tsx:480 | the "Projects" tile equals the number of bars |
| DashboardPage.ManageUsersMatchesGate | frontend/src/app/page.tsx:509 | the "Manage Users" button is shown to a signed-in user exactly when the backend's admin-or-developer dependency admits their token |
| TemplateDashboardPage.CurrentSessions | templates/frontend_app_page.tsx:379-382 | page `p` lists the sessions in stored order, five per page; an existing page is non-empty and a later one empty |
| TemplateDashboardPage.SessionOnItsPage | templates/frontend_app_page.tsx:379-382 | every session is listed on the page its position gives, and that page has a button |
| TemplateDashboardPage.Turn | templates/frontend_app_page.tsx:595-614 | Previous and Next move one page and stop at the first and last page, so the page stays in range |
| TemplateDashboardPage.NextReachesLast | templates/frontend_app_page.tsx:609-613 | enough clicks on Next reach the last page and stay there |
| TemplateDashboardPage.TrendData | templates/frontend_app_page.tsx:89 | the charts show the last min(n, 10) metrics in stored order |
| TemplateDashboardPage.TrendDataAppend | templates/frontend_app_page.tsx:89 | a new metric ends the chart and, once ten are shown, pushes out the oldest |
| TemplateDashboardPage.ComparisonProjects | templates/frontend_app_page.tsx:214 | one comparison entry per distinct project, no repeats, and every project present |
| TemplateDashboardPage.ComparisonCountsProjects | templates/frontend_app_page.tsx:214 | the chart has as many entries as distinct project names |
| TemplateDashboardPage.ManageUsersMatchesGate | templates/frontend_app_page.tsx:414 | the button is shown exactly when the backend's admin-or-developer gate admits the user's token |
| AuthContext.FetchUserInfo | frontend/src/contexts/auth-context.tsx:53-76 | an OK `/me` reply signs its user in; a non-OK reply or a thrown request clears the token both in memory and in local storage; loading ends in every case |
| AuthContext.Mount | frontend/src/contexts/auth-context.tsx:42-51 | a non-empty saved token is adopted and checked against `/me`, leaving the user signed in or everything cleared; without one, loading just ends; memory and storage agree afterwards |
| AuthContext.Login | frontend/src/contexts/auth-context.tsx:78-104 | login answers true exactly on an OK reply, and then sets the token and the user and stores the token; a rejection or a throw answers false and changes nothing |
| AuthContext.Logout | frontend/src/contexts/auth-context.tsx:106-110 | logout leaves no user, no token in memory and nothing in storage |
| AuthContext.Payload | frontend/src/contexts/auth-context.tsx:117-124 | the registration body carries the form's name, full name and role; an empty or missing email becomes null; a missing `is_active` means true; `needs_password_setup` is always true |
| AuthContext.RegisterUser | frontend/src/contexts/auth-context.tsx:112-140 | without a token no request is sent and the answer is false; otherwise the payload is sent and the answer is true exactly when the reply is OK |
| AuthContext.RefreshUserData | frontend/src/contexts/auth-context.tsx:142-146 | a refresh re-fetches the user when a token is held and otherwise changes nothing |
| AuthContext.HandlersKeepConsistent | frontend/src/contexts/auth-context.tsx:53-146 | every handler keeps the in-memory token equal to the stored one |
| AuthContext.ReloadAfterLogin | frontend/src/contexts/auth-context.tsx:42-51 | after a login a page reload picks up the same token from storage |
| AuthContext.ReloadAfterLogout | frontend/src/contexts/auth-context.tsx:106-110 | after a logout a reload finds nothing stored and ends with nobody signed in |
| AuthContext.FailedRefreshKeepsUser | frontend/src/contexts/auth-context.tsx:64-72 | a failed refresh drops the token but leaves the user shown as signed in, after which registration sends nothing and answers false |
| ProtectedRoute.Rank | frontend/src/components/auth/protected-route.tsx:40-44 | the hierarchy ranks exactly viewer, developer and admin, as 1, 2 and 3 |
| ProtectedRoute.RequiredRank | frontend/src/components/auth/protected-route.tsx:46-47 | a required role's level is the rank the hierarchy gives its name |
| ProtectedRoute.Render | frontend/src/components/auth/protected-route.tsx:19-65 | spinner while loading, login form without a user, password setup when one is needed, access denied exactly when a required role ranks above the user's known rank, and the page in every other case |
| ProtectedRoute.GuardMatchesBackendRoles | frontend/src/components/auth/protected-route.tsx:39-49 | for each backend role, the guard admits a user exactly when the backend's role check would with the roles at or above the required one |
| ProtectedRoute.AdmitsWhenRequiringLess | frontend/src/components/auth/protected-route.tsx:46-49 | a user admitted to a page is admitted to any page requiring a lower role |
| ProtectedRoute.UnknownRoleAdmitted | frontend/src/components/auth/protected-route.tsx:46-49 | a role outside the hierarchy has no level, compares false, and so passes even an admin-only page |
| TemplateAuthContext.FetchUser | templates/frontend_contexts_auth_context.tsx:30-56 | without a stored token nothing is sent and only loading ends; otherwise the stored token goes to `/me`, an OK reply sets the user, and a failure removes the stored token but not the user |
| TemplateAuthContext.Login | templates/frontend_contexts_auth_context.tsx:62-83 | login succeeds exactly on an OK reply, storing the token and setting the user; a rejection throws "Login failed" and a failed request rethrows its error, neither storing anything |
| TemplateAuthContext.Logout | templates/frontend_contexts_auth_context.tsx:85-88 | logout removes the stored token and the user |
| TemplateAuthContext.Body | templates/frontend_contexts_auth_context.tsx:99-103 | the body sent keeps the form's fields, turns an empty email into null and forces `needs_password_setup` to true |
| TemplateAuthContext.Authorization | templates/frontend_contexts_auth_context.tsx:92-97 | the header is the stored token after "Bearer ", or "Bearer null" when nothing is stored |
| TemplateAuthContext.RegisterUser | templates/frontend_contexts_auth_context.tsx:90-114 | the request is always sent; it succeeds exactly on an OK reply; a rejection throws its non-empty `detail` or "Failed to register user"; a failed request rethrows |
| TemplateAuthContext.FetchAfterLogin | templates/frontend_contexts_auth_context.tsx:76-78 | after a login the next fetch sends the new token |
| TemplateAuthContext.FetchAfterLogout | templates/frontend_contexts_auth_context.tsx:85-88 | after a logout a fetch sends nothing and nobody is signed in |
| TemplateAuthContext.FailedFetchKeepsUser | templates/frontend_contexts_auth_context.tsx:47-52 | a failed `/me` leaves the user signed in while the token is gone, so a registration then goes out as "Bearer null" |
| UserManagement.VisibleWhereButtonShown | frontend/src/components/auth/user-management.tsx:84-86 | the panel renders for exactly the users the dashboard shows the "Manage Users" button to: signed-in admins and developers |
| UserManagement.RoleOptions | frontend/src/components/auth/user-management.tsx:147-152 | viewer and developer are always offered, admin exactly to an admin, and nothing else |
| UserManagement.Pending | frontend/src/components/auth/user-management.tsx:46-47 | while a submission is in flight the panel is loading with no message and the form untouched |
| UserManagement.Submit | frontend/src/components/auth/user-management.tsx:44-75 | a true answer shows the success message and resets the form; a false answer and a throw show their two different errors and keep the form; loading ends in every case |
| UserManagement.SubmitThroughContext | frontend/src/components/auth/user-management.tsx:49-71 | through the context, which never throws, the "An error occurred" message cannot appear, and without a token the form is kept with an error |
| UserManagement.SubmittedPayload | frontend/src/components/auth/user-management.tsx:50 | with a token, the request carries the form's username, role and active flag, omits an empty email, and always asks for a password to be set |
| UserManagement.Change | frontend/src/components/auth/user-management.tsx:77-82 | an input change sets the named field and keeps every other field |
| UserManagement.ChangesCommute | frontend/src/components/auth/user-management.tsx:77-82 | changes to two different fields give the same form in either order |
| TemplateUserManagement.RolesMatchBackend | templates/frontend_components_auth_user_management.tsx:130-135 | the empty form starts at the backend's default role, and every role the seeding script gives is among the options |
| TemplateUserManagement.Pending | templates/frontend_components_auth_user_management.tsx:34-35 | while a submission is in flight the panel is loading with no message and the form untouched |
| TemplateUserManagement.Submit | templates/frontend_components_auth_user_management.tsx:32-55 | a return shows success and resets the form; any throw shows the one error message and keeps the form; loading ends either way |
| TemplateUserManagement.SubmitThroughContext | templates/frontend_components_auth_user_management.tsx:37-51 | through the context the form resets exactly when the backend answers OK, and the request carries the form's fields with a password still to be set |
| TemplateUserManagement.StatusFlag | templates/frontend_components_auth_user_management.tsx:143-145 | a chosen status sets the flag exactly when it is "active" |
| TemplateUserManagement.StatusRoundTrip | templates/frontend_components_auth_user_management.tsx:141-145 | choosing the status that is shown leaves the active flag unchanged |
| TemplateUserManagement.Change | templates/frontend_components_auth_user_management.tsx:57-62 | an input change sets the named field and keeps every other field |
| TemplateUserManagement.ChangesCommute | templates/frontend_components_auth_user_management.tsx:57-62 | changes to two different fields give the same form in either order |
| FrontendAuthConfig.PermissionsNest | frontend/src/config/auth.ts:56-60 | a viewer's permissions are a developer's, and a developer's are an admin's |
| FrontendAuthConfig.DefaultUsersRanked | frontend/src/config/auth.ts:62-84 | the default users have distinct usernames and roles that the route guard ranks |
| FrontendAuthConfig.GetAuthConfig | frontend/src/config/auth.ts:88-106 | a defined `NEXT_PUBLIC_AUTH_ENABLED` enables auth exactly when it is "true"; a non-empty method replaces the method; a non-empty timeout is read with `parseInt`, NaN included; everything else is the default |
| FrontendAuthConfig.NoEnvIsDefault | frontend/src/config/auth.ts:88-106 | with no variable set the configuration is the default one |
| FrontendAuthConfig.TimeoutReadBack | frontend/src/config/auth.ts:101-103 | a timeout written as a decimal number of minutes is read back as that number |
| TemplateConfigAuth.EndpointsUnderAuth | templates/frontend_config_auth.ts:10-17 | every default endpoint lies under `/api/auth/` |
| TemplateConfigAuth.GetAuthConfig | templates/frontend_config_auth.ts:19-32 | the API URL and the token key each come from their non-empty variable, or else the defaults; the endpoints are the fixed ones |
| TemplateConfigAuth.GetApiUrl | templates/frontend_config_auth.ts:34-37 | a URL is the configured API URL followed by exactly the endpoint |
| TemplateConfigAuth.GetApiUrlInjective | templates/frontend_config_auth.ts:34-37 | different endpoints give different URLs |
| TemplateConfigAuth.GetTokenKey | templates/frontend_config_auth.ts:39-42 | the token key is never empty: the variable when set to something, else "authToken" |
| TemplateConfigAuth.ContextKeyIgnoresOverride | templates/frontend_config_auth.ts:27-29 | the key the configuration reports matches the one the auth context uses exactly when the variable leaves it at "authToken" |
| TemplateConfigApi.BaseUrl | templates/frontend_config_api.ts:3 | the base URL is a non-empty `NEXT_PUBLIC_API_URL`, or else `http://localhost:8000` |
| TemplateConfigApi.GetApiUrl | templates/frontend_config_api.ts:14-16 | a URL is the base URL followed by exactly the endpoint |
| TemplateConfigApi.GetMetricsUrl | templates/frontend_config_api.ts:18 | the metrics URL is the base URL followed by `/api/metrics`, so `http://localhost:8000/api/metrics` when the variable is unset |
| TemplateConfigApi.AuthEndpoint | templates/frontend_config_api.ts:6-10 | every auth endpoint lies under `/api/auth/` |
| TemplateConfigApi.GetAuthUrl | templates/frontend_config_api.ts:19-20 | an auth URL is the base URL followed by a path under `/api/auth/`, so it starts `http://localhost:8000/api/auth/` when the variable is unset |
| TemplateConfigApi.AuthUrlsDistinct | templates/frontend_config_api.ts:19-20 | login, register and me each have their own URL |
| TemplateConfigApi.MetricsUrlNotAuthUrl | templates/frontend_config_api.ts:18-20 | the metrics URL is none of the auth URLs |
| TemplateConfigApi.AgreesWithAuthConfig | templates/frontend_config_api.ts:14-20 | this file and the auth configuration build the same login, register and me URLs from the same variable, whatever the token key |

## Left out

- Console output, colours, spinners and prompts of the command-line tool are not modelled; only the decisions and the file-system effects are.
- Spawning processes is not modelled: `Process` takes how the child ended as a parameter. The `shell: true` reading of the command line is modelled only for the dependency check (`Process.Argv`, with `/bin/sh` word splitting limited to spaces, line ends and double quotes); the wrapper run and the other children are taken to receive their arguments intact. Windows' `cmd.exe` is not modelled.
- Seamless.PythonCheckExit: Python is not modelled; the exit status of the two programs the dependency check can hand it (the check script, and the bare name `python`, which raises `NameError`) is stated from Python's rules, with whether the packages are installed as a parameter.
- `RunAI.RunTrackingScript`: the removal of the temporary script is started but not awaited, and its failure is swallowed; the model treats the removal as done, and as succeeding, before the promise settles.
- The project, team and environment names are interpolated into the Python wrapper without escaping; the model records which values the wrapper is made from, not its Python text.
- Python's octal, hexadecimal, Unicode, named and bell/backspace/form-feed/vertical-tab escapes are kept as written by `Seamless.ReadQuoted`, which decodes only `\\`, `\'`, `\"`, `\n`, `\r`, `\t` and a backslash before a line end; the corrected escaper produces none of the others.
- Commander's own error for a missing argument is not modelled.
- `CliConfig`: the source copies the defaults only one level deep, so environment overrides write into the shared default object; the model uses value semantics, and the shared mutation has no effect on a single run.
- `Crypto`: hash rounds, salts, encodings and signature bytes are not modelled; checking a password against the empty stored hash answers false, where passlib raises.
- `BackendAuthRoutes.Register`: requires a non-empty e-mail when one is given, as `EmailStr` validation refuses an empty one before the route runs.
- A database integrity error on commit in the backend routes is modelled as the HTTP 500 the framework returns.
- Negative `skip` and `limit` follow SQLite's `OFFSET`/`LIMIT` reading; FastAPI does not reject them.
- Float readings (energy, emissions, water, durations as floats) are real numbers and only copied or summed; float averages, `toFixed` and rounding to six decimals are left out.
- `TemplateMetrics.GenerateSampleData`: the random draws are a parameter, each typed to the range the source draws it from; rounding to six decimals is not modelled, so emissions and the GPU and CPU shares are exact.
- Timestamps are integers; rows with equal timestamps come back in an order SQL leaves unspecified, and the model fixes one.
- templates/backend_core_security.py and templates/backend_core_config.py are not part of this model; the template's settings are a parameter of the template routes.
- The template's `UserUpdate` schema is never used by a route and is left out.
- `Create.CreateCopiesTemplates`: needs the project directory not to contain the templates directory; a project named `templates` created in the directory that holds the tool's templates is the exception, shown by `Create.ProjectNamedTemplates`.
- d3 chart drawing and all JSX markup are not modelled; only the lists the charts and tables are drawn from are.
- The React contexts run their handlers asynchronously and batch state updates; the model applies each handler as one sequential transition.
- `TemplateAuthContext.RegisterUser`: the `...userData` spread is modelled as the five fields the user-management form passes.
- `FrontendAuthConfig.GetAuthConfig`: the `method` field is called `authMethod`, since `method` is a Dafny keyword; the LDAP and OAuth settings of the type are never set and are left out.
- `TemplateAuthContext.TokenKey`: the context hard-codes "authToken" and ignores `NEXT_PUBLIC_AUTH_TOKEN_KEY`, as the source does.
- `Create.CreateAfterStructure`: `npm install` and `pip install` are a parameter saying whether they succeeded; the `node_modules` directory, `package-lock.json` and whatever else they write into the project is not modelled, so "writes no file" holds in the model only.
- `Create.MakeDirs`: the `ensureDir` calls of the skeleton are modelled as always succeeding; the project directory was missing before the command, so nothing but directories lies inside it when they run. Only the `ensureDir` of the project directory itself can fail in the model.
- `Create.SetupDatabase`: its two `ensureDir` calls are modelled as always succeeding, as the skeleton already made `data` and `backend`.
- `Text.ParseInt`: `parseInt` returns a double, which rounds integers beyond 2^53 and gives `Infinity` for very long digit strings; the model returns the exact integer.
- `Text.ParseDecimal`: stated about exact integers, so it does not cover the rounding of results beyond 2^53.
- `Text.ParseDigits`: stated about exact integers, so it does not cover the rounding of results beyond 2^53.
- `Text.ParseNegativeDigits`: stated about exact integers, so it does not cover the rounding of results beyond 2^53.
- `FrontendAuthConfig.TimeoutReadBack`: the timeout reads back exactly for any integer; in the source this holds only for timeouts of at most 2^53.
- `FileSystem.Copy`: a directory source is not copied recursively, only the destination directory is made, and copying onto an existing directory does not fail; every source the commands copy is a single file.
- `Text.IsJsSpace`: covers the ASCII white space, no-break space and the byte-order mark; the line and paragraph separators (U+2028, U+2029) and the other Unicode space separators that `parseInt` also skips are left out.
- `CliConfig.ThroughJson`: JSON `null` and a missing timeout are both read back as no timeout; the model does not tell them apart.
- `CliConfig.SaveThenLoad`: assumes the file reads back exactly what was saved; `CliConfig.SaveThenLoadJson` states what JSON writing actually preserves.
- dist/cli/setup.js and the `status` command of dist/cli.js are not part of this model.

## Findings

| source | as written | input that shows it | evidently intended | confidence | as-written member | corrected member |
|---|---|---|---|---|---|---|
| src/cli/create.ts:164-167 | the Windows path normaliser is applied to every path, and on a POSIX absolute path it drops the leading `/`, so the candidates built from the tool's own directory become relative segments read against the working directory | tool at `/opt/tool/dist/cli` with its templates at `/opt/tool/templates`, run from `/home/user` | leave POSIX paths as they are, so `/opt/tool/templates` is found | not executed | Create.CreateProject, Create.LocateAsWrittenMissesExample, Create.CreateProjectMissesExample | Create.CreateProjectCorrected, Create.LocateFindsExample, Create.CreateProjectCorrectedFindsExample |
| dist/cli/start.js:25 | only `'` is escaped before the script is put inside `'…'` in the Python wrapper, so a backslash in the script escapes the closing quote. The wrapper is also spawned with `shell: true` (dist/cli/start.js:252-254), which joins `-c` and the wrapper text unquoted into one `/bin/sh` line, so the shell splits the wrapper before Python sees it; the backslash defect shows once the wrapper is passed intact | the script `a\` | escape backslashes (and line ends) too, so the literal reads back as the script | not executed | Seamless.CreateSeamlessWrapper, Seamless.WrapperLosesTrailingBackslash | Seamless.CorrectedSeamlessWrapper, Seamless.StartSeamlessCorrected |
| dist/cli/start.js:196-207 | `checkCommand` already reads `python -c "…"`, and it is passed as the argument of `python -c` with `shell: true`; the shell line becomes `python -c python -c "…"`, so Python runs the program `python`, which raises `NameError` and exits 1 | both packages installed | pass the script itself (`python -c` with the Python code, no shell wrapping), so the check exits 0 exactly when both packages import and pip is skipped | not executed | Seamless.CheckAsWritten, Seamless.CheckAsWrittenAlwaysInstalls | Seamless.CheckCorrected, Seamless.CheckCorrectedSkipsPip |
