/** The metric routes of the template backend. Metrics carry their project
    name directly and belong to the user who created them; the listing shows
    the current user's metrics, newest first. Random sample generation takes
    its random draws as a parameter. */
module TemplateMetrics {
  import opened Wrappers
  import opened Sorting
  import opened Crypto
  import opened TemplateUsers
  import opened TemplateAuthRoutes
  import BackendMetrics
  import Rows

  /** The measured values, as in the dashboard's backend. */
  type Readings = BackendMetrics.Readings

  /** A row of `metrics`: the project is a required string, the owner a
      nullable reference to `users`, the timestamp set on insertion. */
  datatype Metric = Metric(
    id: int,
    project: string,
    readings: Readings,
    environment: string,
    timestamp: int,
    userId: Option<int>)

  type Table = seq<Metric>

  /** `MetricCreate`: `project` is required. */
  datatype MetricCreate = MetricCreate(project: string, readings: Readings, environment: string)

  /** A `MetricCreate` with the environment left at its default. */
  function MetricCreateDefaults(project: string, readings: Readings): MetricCreate {
    MetricCreate(project, readings, "development")
  }

  /** The metrics owned by the user `id`, in table order. */
  function OwnedBy(ms: Table, id: int): (r: Table)
    ensures forall m :: m in r <==> m in ms && m.userId == Some(id)
    ensures multiset(r) <= multiset(ms)
    ensures |r| <= |ms|
  {
    if |ms| == 0 then []
    else
      var rest := OwnedBy(ms[..|ms| - 1], id);
      assert ms == ms[..|ms| - 1] + [ms[|ms| - 1]];
      if ms[|ms| - 1].userId == Some(id) then rest + [ms[|ms| - 1]] else rest
  }

  /** Newest first. */
  function Age(m: Metric): int {
    -m.timestamp
  }

  /** `GET /metrics`: exactly the current user's metrics, each once, ordered
      by timestamp with the newest first. */
  function GetMetrics(ms: Table, s: Store, settings: Settings, token: Token, now: int): (r: Result<Table, HttpError>)
    ensures r.Ok? <==> CurrentUser(s, settings, token, now).Ok?
    ensures r.Err? ==> r.error == CouldNotValidate
    ensures r.Ok? ==>
              var id := CurrentUser(s, settings, token, now).value.id;
              && multiset(r.value) == multiset(OwnedBy(ms, id))
              && (forall m :: m in r.value <==> m in ms && m.userId == Some(id))
              && (forall i, j :: 0 <= i < j < |r.value| ==> r.value[i].timestamp >= r.value[j].timestamp)
  {
    var user :- CurrentUser(s, settings, token, now);
    Ok(Listing(ms, user.id))
  }

  /** The listing of the user `id`: their metrics, newest first. */
  function Listing(ms: Table, id: int): (r: Table)
    ensures multiset(r) == multiset(OwnedBy(ms, id))
    ensures forall m :: m in r <==> m in ms && m.userId == Some(id)
    ensures forall i, j :: 0 <= i < j < |r| ==> r[i].timestamp >= r[j].timestamp
  {
    var owned := OwnedBy(ms, id);
    var sorted := SortBy(owned, Age);
    assert forall m :: m in sorted <==> m in multiset(sorted);
    assert forall i, j :: 0 <= i < j < |sorted| ==> Age(sorted[i]) <= Age(sorted[j]);
    sorted
  }

  /** `POST /metrics`: the input's fields are copied into a new row owned by
      the current user. */
  function CreateMetric(ms: Table, s: Store, settings: Settings, token: Token, now: int, input: MetricCreate): (r: Result<(Table, Metric), HttpError>)
    ensures r.Ok? <==> CurrentUser(s, settings, token, now).Ok?
    ensures r.Ok? ==>
              var m := r.value.1;
              && r.value.0 == ms + [m]
              && m.project == input.project && m.readings == input.readings && m.environment == input.environment
              && m.timestamp == now
              && m.userId == Some(CurrentUser(s, settings, token, now).value.id)
              && forall i :: 0 <= i < |ms| ==> ms[i].id != m.id
  {
    var user :- CurrentUser(s, settings, token, now);
    var m := Metric(Rows.NextId(ms, (row: Metric) => row.id), input.project, input.readings, input.environment, now, Some(user.id));
    Ok((ms + [m], m))
  }

  /** A metric created with the environment left out is filed under
      "development". */
  lemma CreateMetricDefaults(ms: Table, s: Store, settings: Settings, token: Token, now: int, project: string, readings: Readings)
    requires CurrentUser(s, settings, token, now).Ok?
    ensures CreateMetric(ms, s, settings, token, now, MetricCreateDefaults(project, readings)).value.1.environment == "development"
  {
  }

  /** The metric just created shows up in its creator's listing. */
  lemma CreatedMetricListed(ms: Table, s: Store, settings: Settings, token: Token, now: int, input: MetricCreate)
    requires CreateMetric(ms, s, settings, token, now, input).Ok?
    ensures var (ms', m) := CreateMetric(ms, s, settings, token, now, input).value;
            m in GetMetrics(ms', s, settings, token, now).value
  {
  }

  const SampleProjects := ["image-classification", "nlp-model", "recommendation-system", "computer-vision"]
  const SampleEnvironments := ["development", "production", "staging"]
  const SampleCount := 50

  /** One sample's random draws, each in the range the source draws it
      from: a project and an environment by index, the age in days, hours
      and minutes, the duration in whole seconds, and the energy, water and
      GPU share. */
  datatype Draw = Draw(
    project: ProjectChoice,
    environment: EnvironmentChoice,
    days: Days,
    hours: Hours,
    minutes: Minutes,
    duration: Duration,
    energy: Energy,
    water: Water,
    gpuRatio: GpuRatio)

  type ProjectChoice = i: int | 0 <= i < 4
  type EnvironmentChoice = i: int | 0 <= i < 3
  type Days = i: int | 0 <= i <= 30
  type Hours = i: int | 0 <= i <= 23
  type Minutes = i: int | 0 <= i <= 59
  type Duration = i: int | 1 <= i <= 3600 witness 1
  /** The continuous draws; rounding to six decimals keeps them in range. */
  type Energy = x: real | 0.1 <= x <= 10.0 witness 0.1
  type Water = x: real | 0.1 <= x <= 5.0 witness 0.1
  type GpuRatio = x: real | 0.6 <= x <= 0.9 witness 0.6

  /** The sample built from one draw, owned by `owner`, at `now` minus the
      drawn age. Emissions are half the energy and the energy splits
      between GPU and CPU by the drawn share, the CPU taking the rest
      (`e * (1 - share)` is exactly that over the reals); rounding to six
      decimals is not modelled. */
  function Sample(id: int, d: Draw, owner: int, now: int): (m: Metric)
    ensures m.project in SampleProjects && m.environment in SampleEnvironments
    ensures 1.0 <= m.readings.duration <= 3600.0
    ensures 0.1 <= m.readings.energyConsumed <= 10.0 && m.readings.emissions * 2.0 == m.readings.energyConsumed
    ensures m.readings.waterUsage.Some? && 0.1 <= m.readings.waterUsage.value <= 5.0
    ensures m.readings.gpuEnergy.Some? && m.readings.cpuEnergy.Some?
    ensures now - (30 * 86400 + 23 * 3600 + 59 * 60) <= m.timestamp <= now
    ensures m.userId == Some(owner) && m.id == id
  {
    var e: real := d.energy;
    var r: real := d.gpuRatio;
    var gpu := e * r;
    var readings := BackendMetrics.Readings(e, Half(e), d.duration as real, Some(gpu), Some(e - gpu), Some(d.water));
    Metric(id, SampleProjects[d.project], readings,
           SampleEnvironments[d.environment],
           now - (d.days * 86400 + d.hours * 3600 + d.minutes * 60),
           Some(owner))
  }

  /** Half the energy, the emissions the source records for it. */
  function Half(e: real): (h: real)
    ensures h * 2.0 == e
  {
    e * 0.5
  }

  /** A sample's energy splits between GPU and CPU, both positive and the
      GPU taking the larger part. */
  lemma SampleSplitsEnergy(id: int, d: Draw, owner: int, now: int)
    ensures var m := Sample(id, d, owner, now);
            m.readings.gpuEnergy.value + m.readings.cpuEnergy.value == m.readings.energyConsumed
    ensures var m := Sample(id, d, owner, now);
            m.readings.gpuEnergy.value > m.readings.cpuEnergy.value
    ensures var m := Sample(id, d, owner, now);
            m.readings.cpuEnergy.value > 0.0
  {
    var m := Sample(id, d, owner, now);
    ScaleBetween(d.energy, d.gpuRatio, m.readings.gpuEnergy.value);
  }

  /** Scaling a positive amount by a share between one half and one lands
      strictly between half the amount and the amount. */
  lemma ScaleBetween(e: real, share: real, scaled: real)
    requires e > 0.0 && 0.5 < share < 1.0 && scaled == e * share
    ensures scaled > e * 0.5
    ensures scaled < e
  {
    var above, below := share - 0.5, 1.0 - share;
    assert e * above > 0.0;
    assert e * below > 0.0;
    assert scaled - e * 0.5 == e * above;
    assert e - scaled == e * below;
  }

  /** The samples for draws `k .. SampleCount - 1`, numbered from `firstId`. */
  function Samples(k: nat, draw: nat -> Draw, firstId: int, owner: int, now: int): (r: Table)
    requires k <= SampleCount
    ensures |r| == SampleCount - k
    ensures forall i :: 0 <= i < |r| ==> r[i] == Sample(firstId + i, draw(k + i), owner, now)
    decreases SampleCount - k
  {
    if k == SampleCount then []
    else
      var rest := Samples(k + 1, draw, firstId + 1, owner, now);
      var r := [Sample(firstId, draw(k), owner, now)] + rest;
      assert forall i :: 1 <= i < |r| ==> r[i] == rest[i - 1];
      r
  }

  /** `POST /metrics/generate-sample-data`: fifty samples, all owned by the
      current user, appended in one commit, with a message giving their
      number. */
  function GenerateSampleData(ms: Table, s: Store, settings: Settings, token: Token, now: int, draw: nat -> Draw): (r: Result<(Table, string), HttpError>)
    ensures r.Ok? <==> CurrentUser(s, settings, token, now).Ok?
    ensures r.Ok? ==>
              var t := r.value.0;
              && |t| == |ms| + 50 && t[..|ms|] == ms
              && r.value.1 == "Generated 50 sample metrics"
              && forall k :: |ms| <= k < |t| ==>
                   SampleRow(ms, t[k], CurrentUser(s, settings, token, now).value.id, now)
  {
    var user :- CurrentUser(s, settings, token, now);
    var firstId := Rows.NextId(ms, (row: Metric) => row.id);
    AppendSamples(ms, draw, firstId, user.id, now);
    Ok((ms + Samples(0, draw, firstId, user.id, now), "Generated 50 sample metrics"))
  }

  /** A generated row: owned by `owner`, with a sample project and
      environment, a duration of one second to an hour, a timestamp at most
      30 days, 23 hours and 59 minutes back, and an id no row of `ms` has. */
  predicate SampleRow(ms: Table, m: Metric, owner: int, now: int) {
    && m.userId == Some(owner)
    && m.project in SampleProjects && m.environment in SampleEnvironments
    && 1.0 <= m.readings.duration <= 3600.0
    && now - 30 * 86400 - 23 * 3600 - 59 * 60 <= m.timestamp <= now
    && forall i :: 0 <= i < |ms| ==> ms[i].id != m.id
  }

  /** The fifty samples appended after rows whose ids are all below the
      first new id: the old rows stay in front, and each new row is a
      sample owned by `owner` whose id no old row has. */
  lemma AppendSamples(ms: Table, draw: nat -> Draw, firstId: int, owner: int, now: int)
    requires forall i :: 0 <= i < |ms| ==> ms[i].id < firstId
    ensures var t := ms + Samples(0, draw, firstId, owner, now);
            && |t| == |ms| + 50 && t[..|ms|] == ms
            && forall k :: |ms| <= k < |t| ==> SampleRow(ms, t[k], owner, now)
  {
    var samples := Samples(0, draw, firstId, owner, now);
    var t := ms + samples;
    assert t[..|ms|] == ms;
    forall k | |ms| <= k < |t|
      ensures SampleRow(ms, t[k], owner, now)
    {
      assert t[k] == samples[k - |ms|] == Sample(firstId + (k - |ms|), draw(k - |ms|), owner, now);
      SampleIsRow(ms, firstId + (k - |ms|), draw(k - |ms|), owner, now);
    }
  }

  /** A sample whose id is above every id of `ms` is a generated row. */
  lemma SampleIsRow(ms: Table, id: int, d: Draw, owner: int, now: int)
    requires forall i :: 0 <= i < |ms| ==> ms[i].id < id
    ensures SampleRow(ms, Sample(id, d, owner, now), owner, now)
  {
  }
}
