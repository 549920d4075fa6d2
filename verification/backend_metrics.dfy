/** The backend's metric store: projects, teams and metrics, with
    `create_metric` (get-or-create of the project by name and of the team by
    name within the project) and `get_metrics` (an offset/limit window
    projected with project and team names). The float readings are real
    numbers here; they are only ever copied. */
module BackendMetrics {
  import opened Wrappers
  import opened Text
  import opened Rows

  datatype Project = Project(id: int, name: string)

  /** A team belongs to a project; the same team name may appear under
      several projects. */
  datatype Team = Team(id: int, name: string, projectId: int)

  /** The measured values of a run; the last three columns are nullable. */
  datatype Readings = Readings(
    energyConsumed: real,
    emissions: real,
    duration: real,
    gpuEnergy: Option<real>,
    cpuEnergy: Option<real>,
    waterUsage: Option<real>)

  /** A row of `metrics`; the team is nullable and the timestamp is set by
      the database when the row is inserted. */
  datatype Metric = Metric(
    id: int,
    projectId: int,
    teamId: Option<int>,
    readings: Readings,
    environment: string,
    timestamp: int)

  datatype Db = Db(projects: seq<Project>, teams: seq<Team>, metrics: seq<Metric>)

  /** Unique ids in every table, unique project names, and at most one team
      of a name within a project (the last is kept by `create_metric`, not
      by a constraint). */
  ghost predicate Valid(db: Db) {
    && (forall i, j :: 0 <= i < j < |db.projects| ==> db.projects[i].id != db.projects[j].id)
    && (forall i, j :: 0 <= i < j < |db.projects| ==> db.projects[i].name != db.projects[j].name)
    && (forall i, j :: 0 <= i < j < |db.teams| ==> db.teams[i].id != db.teams[j].id)
    && (forall i, j :: 0 <= i < j < |db.teams| ==>
          db.teams[i].name != db.teams[j].name || db.teams[i].projectId != db.teams[j].projectId)
    && (forall i, j :: 0 <= i < j < |db.metrics| ==> db.metrics[i].id != db.metrics[j].id)
  }

  /** `MetricCreate`. */
  datatype MetricCreate = MetricCreate(readings: Readings, environment: string, project: string, team: Option<string>)

  /** A `MetricCreate` with only the required fields: environment
      "development" and no team. */
  function MetricCreateDefaults(readings: Readings, project: string): MetricCreate {
    MetricCreate(readings, "development", project, None)
  }

  function ProjectNamed(db: Db, name: string): Option<nat> {
    First(db.projects, (p: Project) => p.name == name)
  }

  function TeamNamed(db: Db, name: string, projectId: int): Option<nat> {
    First(db.teams, (t: Team) => t.name == name && t.projectId == projectId)
  }

  /** The project called `name`, created when there is none: afterwards
      there is exactly one, the returned id is its id, and nothing else
      changes. */
  function GetOrCreateProject(db: Db, name: string): (r: (Db, int))
    requires Valid(db)
    ensures Valid(r.0)
    ensures r.0.teams == db.teams && r.0.metrics == db.metrics
    ensures ProjectNamed(db, name).Some? ==> r.0 == db
    ensures ProjectNamed(db, name).None? ==> r.0.projects == db.projects + [Project(r.1, name)]
    ensures exists i :: 0 <= i < |r.0.projects| && r.0.projects[i] == Project(r.1, name)
  {
    match ProjectNamed(db, name)
    case Some(i) => (db, db.projects[i].id)
    case None =>
      var p := Project(NextId(db.projects, (row: Project) => row.id), name);
      var db' := db.(projects := db.projects + [p]);
      assert db'.projects[|db.projects|] == p;
      (db', p.id)
  }

  /** The team called `name` in the given project, created when there is
      none; nothing else changes. */
  function GetOrCreateTeam(db: Db, name: string, projectId: int): (r: (Db, int))
    requires Valid(db)
    ensures Valid(r.0)
    ensures r.0.projects == db.projects && r.0.metrics == db.metrics
    ensures TeamNamed(db, name, projectId).Some? ==> r.0 == db
    ensures TeamNamed(db, name, projectId).None? ==> r.0.teams == db.teams + [Team(r.1, name, projectId)]
    ensures exists i :: 0 <= i < |r.0.teams| && r.0.teams[i] == Team(r.1, name, projectId)
  {
    match TeamNamed(db, name, projectId)
    case Some(i) => (db, db.teams[i].id)
    case None =>
      var t := Team(NextId(db.teams, (row: Team) => row.id), name, projectId);
      var db' := db.(teams := db.teams + [t]);
      assert db'.teams[|db.teams|] == t;
      (db', t.id)
  }

  /** `POST /metrics`: the metric is stored under the project of its name
      and, when a non-empty team name is given, under that team of the
      project; the readings and the environment are copied unchanged. */
  function CreateMetric(db: Db, input: MetricCreate, now: int): (r: (Db, Metric))
    requires Valid(db)
    ensures Valid(r.0)
    ensures r.0.metrics == db.metrics + [r.1]
    ensures r.1.readings == input.readings && r.1.environment == input.environment && r.1.timestamp == now
    ensures exists i :: 0 <= i < |r.0.projects| && r.0.projects[i] == Project(r.1.projectId, input.project)
    ensures r.1.teamId.Some? <==> input.team.Some? && Truthy(input.team.value)
    ensures r.1.teamId.Some? ==>
              exists i :: 0 <= i < |r.0.teams| && r.0.teams[i] == Team(r.1.teamId.value, input.team.value, r.1.projectId)
    ensures db.projects <= r.0.projects && db.teams <= r.0.teams
  {
    var (db1, projectId) := GetOrCreateProject(db, input.project);
    var (db2, teamId) := AttachTeam(db1, input.team, projectId);
    AppendMetric(db2, Metric(0, projectId, teamId, input.readings, input.environment, now))
  }

  /** The team step of `create_metric`: a non-empty team name is looked up
      or created under the project; otherwise there is no team. */
  function AttachTeam(db: Db, team: Option<string>, projectId: int): (r: (Db, Option<int>))
    requires Valid(db)
    ensures Valid(r.0)
    ensures r.0.projects == db.projects && r.0.metrics == db.metrics && db.teams <= r.0.teams
    ensures r.1.Some? <==> team.Some? && Truthy(team.value)
    ensures r.1.Some? ==> exists i :: 0 <= i < |r.0.teams| && r.0.teams[i] == Team(r.1.value, team.value, projectId)
  {
    if team.Some? && Truthy(team.value) then
      var (d, t) := GetOrCreateTeam(db, team.value, projectId);
      (d, Some(t))
    else (db, None)
  }

  /** The metric row inserted with a fresh id. */
  function AppendMetric(db: Db, m: Metric): (r: (Db, Metric))
    requires Valid(db)
    ensures Valid(r.0)
    ensures r.0.projects == db.projects && r.0.teams == db.teams
    ensures r.0.metrics == db.metrics + [r.1]
    ensures r.1 == m.(id := r.1.id)
    ensures forall i :: 0 <= i < |db.metrics| ==> db.metrics[i].id != r.1.id
  {
    var row := m.(id := NextId(db.metrics, (row: Metric) => row.id));
    (db.(metrics := db.metrics + [row]), row)
  }

  /** Recording a metric for a project that already exists adds no project,
      so the names stay unique however many metrics arrive. */
  lemma CreateMetricReusesProject(db: Db, input: MetricCreate, now: int)
    requires Valid(db)
    requires ProjectNamed(db, input.project).Some?
    ensures CreateMetric(db, input, now).0.projects == db.projects
    ensures CreateMetric(db, input, now).1.projectId == db.projects[ProjectNamed(db, input.project).value].id
  {
  }

  /** A metric as `get_metrics` returns it: the row with the project's name
      ("Unknown" when no project has its id) and the team's name, if any. */
  datatype MetricView = MetricView(
    id: int,
    projectId: int,
    teamId: Option<int>,
    project: string,
    team: Option<string>,
    readings: Readings,
    environment: string,
    timestamp: int)

  function View(db: Db, m: Metric): (v: MetricView)
    ensures v.id == m.id && v.projectId == m.projectId && v.teamId == m.teamId
    ensures v.readings == m.readings && v.environment == m.environment && v.timestamp == m.timestamp
    ensures First(db.projects, (row: Project) => row.id == m.projectId).None? ==> v.project == "Unknown"
    ensures m.teamId.None? ==> v.team.None?
  {
    var project := First(db.projects, (row: Project) => row.id == m.projectId);
    var team := if m.teamId.Some? then First(db.teams, (row: Team) => row.id == m.teamId.value) else None;
    MetricView(m.id, m.projectId, m.teamId,
               if project.Some? then db.projects[project.value].name else "Unknown",
               if team.Some? then Some(db.teams[team.value].name) else None,
               m.readings, m.environment, m.timestamp)
  }

  const DefaultSkip := 0
  const DefaultLimit := 100

  /** `GET /metrics?skip=…&limit=…`: the window of the metrics table, one
      view per row fetched. */
  function GetMetrics(db: Db, skip: int, limit: int): (r: seq<MetricView>)
    ensures |r| == |Window(db.metrics, skip, limit)|
    ensures forall k :: 0 <= k < |r| ==> r[k] == View(db, db.metrics[Start(|db.metrics|, skip) + k])
    ensures 0 <= limit ==> |r| <= limit
  {
    var rows := Window(db.metrics, skip, limit);
    seq(|rows|, k requires 0 <= k < |rows| => View(db, rows[k]))
  }

  /** With the defaults, at most the first 100 metrics come back. */
  lemma GetMetricsDefaults(db: Db)
    ensures |GetMetrics(db, DefaultSkip, DefaultLimit)| == if |db.metrics| < 100 then |db.metrics| else 100
  {
  }

  /** The metric just created is listed, named after its project. */
  lemma CreatedMetricListed(db: Db, input: MetricCreate, now: int)
    requires Valid(db)
    ensures var (db', m) := CreateMetric(db, input, now);
            var listed := GetMetrics(db', |db.metrics|, 1);
            |listed| == 1 && listed[0].id == m.id && listed[0].project == input.project
  {
    var (db', m) := CreateMetric(db, input, now);
    var i :| 0 <= i < |db'.projects| && db'.projects[i] == Project(m.projectId, input.project);
    var found := First(db'.projects, (row: Project) => row.id == m.projectId);
    assert found.Some?;
  }
}
