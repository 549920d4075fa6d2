/** The list logic of the dashboard's main page: the newest-first session
    pager, the energy trend over the ten latest sessions, the per-project
    bar chart with its session counts, the "Projects" tile, and the role
    gate of the "Manage Users" button. Only the fields this logic reads are
    kept; the float readings are only drawn and summed for display. */
module DashboardPage {
  import opened Wrappers
  import opened JsArray
  import opened Sorting
  import opened Grouping
  import opened Paging
  import BackendUsers
  import BackendSecurity
  import Crypto

  /** A fetched metric; `timestamp` is `new Date(timestamp).getTime()`. */
  datatype Metric = Metric(id: int, project: string, timestamp: int)

  function Project(m: Metric): string {
    m.project
  }

  function Time(m: Metric): int {
    m.timestamp
  }

  /** `metrics.slice().reverse().slice(startIndex, endIndex)`: page `page`
      of the sessions, newest first. */
  function CurrentSessions(metrics: seq<Metric>, page: int): (r: seq<Metric>)
    ensures |r| <= 5
    ensures 1 <= page ==>
              forall k :: 0 <= k < |r| ==>
                PageStart(page) + k < |metrics| && r[k] == metrics[|metrics| - 1 - (PageStart(page) + k)]
    ensures 1 <= page <= TotalPages(|metrics|) ==> 0 < |r|
    ensures TotalPages(|metrics|) < page ==> r == []
  {
    PageOf(Reverse(metrics), page)
  }

  /** The first page opens with the last metric fetched. */
  lemma FirstPageStartsWithLatest(metrics: seq<Metric>)
    requires |metrics| > 0
    ensures CurrentSessions(metrics, 1)[0] == metrics[|metrics| - 1]
  {
  }

  /** A suffix of a time-sorted list is in order, and nothing left before
      it is later than its first element. */
  lemma SortedSuffix(s: seq<Metric>, cut: nat)
    requires SortedBy(s, Time) && cut < |s|
    ensures var t := s[cut..];
            && (forall i, j :: 0 <= i < j < |t| ==> t[i].timestamp <= t[j].timestamp)
            && multiset(t) <= multiset(s)
            && forall m :: m in multiset(s) - multiset(t) ==> m.timestamp <= t[0].timestamp
  {
    var t := s[cut..];
    forall i, j | 0 <= i < j < |t| ensures t[i].timestamp <= t[j].timestamp {
      assert t[i] == s[cut + i] && t[j] == s[cut + j];
    }
    EarlierNotLater(s, cut);
  }

  /** Nothing before position `cut` of a time-sorted list is later than
      the element there. */
  lemma EarlierNotLater(s: seq<Metric>, cut: nat)
    requires SortedBy(s, Time) && cut < |s|
    ensures multiset(s[cut..]) <= multiset(s)
    ensures forall m :: m in multiset(s) - multiset(s[cut..]) ==> m.timestamp <= s[cut..][0].timestamp
  {
    var t := s[cut..];
    assert s == s[..cut] + t;
    assert multiset(s) == multiset(s[..cut]) + multiset(t);
    forall m | m in multiset(s) - multiset(t) ensures m.timestamp <= s[cut].timestamp {
      assert m in s[..cut];
      var i :| 0 <= i < cut && s[..cut][i] == m;
      assert Time(s[i]) <= Time(s[cut]);
    }
  }

  /** The last ten of a time-sorted arrangement of the metrics are in
      order, and none of the others is later than the first of them. */
  lemma LastTenAreLatest(metrics: seq<Metric>, sorted: seq<Metric>)
    requires SortedBy(sorted, Time) && multiset(sorted) == multiset(metrics)
    ensures var r := Slice(sorted, -10, |sorted|);
            && (forall i, j :: 0 <= i < j < |r| ==> r[i].timestamp <= r[j].timestamp)
            && multiset(r) <= multiset(metrics)
            && (|r| > 0 ==> forall m :: m in multiset(metrics) - multiset(r) ==> m.timestamp <= r[0].timestamp)
  {
    var r := Slice(sorted, -10, |sorted|);
    SliceLast(sorted, 10);
    var cut := if |sorted| <= 10 then 0 else |sorted| - 10;
    assert r == sorted[cut..];
    if |sorted| > 0 {
      SortedSuffix(sorted, cut);
    }
  }

  /** The energy chart's sessions: sorted by time, the last ten, oldest
      first. None of the sessions left out is later than the first one
      shown. */
  function TrendData(metrics: seq<Metric>): (r: seq<Metric>)
    ensures |r| == if |metrics| < 10 then |metrics| else 10
    ensures forall i, j :: 0 <= i < j < |r| ==> r[i].timestamp <= r[j].timestamp
    ensures multiset(r) <= multiset(metrics)
    ensures |r| > 0 ==> forall m :: m in multiset(metrics) - multiset(r) ==> m.timestamp <= r[0].timestamp
  {
    var sorted := SortBy(metrics, Time);
    LastTenAreLatest(metrics, sorted);
    SliceLast(sorted, 10);
    Slice(sorted, -10, |sorted|)
  }

  /** The per-project totals drawn as bars: each distinct project, in the
      order it first appears, with its number of sessions. */
  function Counts(ks: seq<string>, metrics: seq<Metric>): (r: seq<(string, nat)>)
    ensures |r| == |ks|
    ensures forall i :: 0 <= i < |r| ==> r[i] == (ks[i], |Members(metrics, Project, ks[i])|)
  {
    if |ks| == 0 then []
    else Counts(ks[..|ks| - 1], metrics) + [(ks[|ks| - 1], |Members(metrics, Project, ks[|ks| - 1])|)]
  }

  /** The names on a list of bars. */
  function Names(r: seq<(string, nat)>): set<string> {
    set i | 0 <= i < |r| :: r[i].0
  }

  /** The bars of the distinct projects name every project and no other. */
  lemma CountsNameProjects(metrics: seq<Metric>)
    ensures Names(Counts(Keys(metrics, Project), metrics)) == Distinct(metrics, Project)
  {
    var ks := Keys(metrics, Project);
    var r := Counts(ks, metrics);
    forall k | k in Distinct(metrics, Project) ensures k in Names(r) {
      var j :| 0 <= j < |metrics| && Project(metrics[j]) == k;
      assert k in ks;
      var i :| 0 <= i < |ks| && ks[i] == k;
      assert r[i].0 == k;
    }
    forall k | k in Names(r) ensures k in Distinct(metrics, Project) {
      var i :| 0 <= i < |r| && r[i].0 == k;
      assert ks[i] in ks;
      var j :| 0 <= j < |metrics| && Project(metrics[j]) == k;
    }
  }

  /** `d3.group(metrics, d => d.project)` mapped to `sessionCount`: one
      entry per distinct project, carrying its number of sessions. */
  function ProjectSessions(metrics: seq<Metric>): (r: seq<(string, nat)>)
    ensures forall i, j :: 0 <= i < j < |r| ==> r[i].0 != r[j].0
    ensures Names(r) == Distinct(metrics, Project)
    ensures forall i :: 0 <= i < |r| ==> r[i].1 == |Members(metrics, Project, r[i].0)|
  {
    CountsNameProjects(metrics);
    Counts(Keys(metrics, Project), metrics)
  }

  function Sum(r: seq<(string, nat)>): nat {
    if |r| == 0 then 0 else Sum(r[..|r| - 1]) + r[|r| - 1].1
  }

  lemma {:induction false} SumCounts(ks: seq<string>, metrics: seq<Metric>)
    ensures Sum(Counts(ks, metrics)) == Total(ks, metrics, Project)
    decreases |ks|
  {
    if |ks| > 0 {
      SumCounts(ks[..|ks| - 1], metrics);
      var r := Counts(ks, metrics);
      assert r[..|r| - 1] == Counts(ks[..|ks| - 1], metrics);
    }
  }

  /** The session counts of the bars add up to the number of metrics. */
  lemma SessionCountsSum(metrics: seq<Metric>)
    ensures Sum(ProjectSessions(metrics)) == |metrics|
  {
    SumCounts(Keys(metrics, Project), metrics);
    GroupSizesSum(metrics, Project);
  }

  /** The "Projects" tile: `new Set(metrics.map(m => m.project)).size`,
      which is the number of bars. */
  function UniqueProjects(metrics: seq<Metric>): (n: nat)
    ensures n == |ProjectSessions(metrics)|
  {
    DistinctCountsGroups(metrics, Project);
    |Distinct(metrics, Project)|
  }

  /** The "Manage Users" button: shown to a signed-in admin or developer. */
  predicate ShowsManageUsers(role: Option<string>) {
    role.Some? && (role.value == "admin" || role.value == "developer")
  }

  /** The button is shown to a signed-in user exactly when the backend's
      admin-or-developer dependency lets their token through. */
  lemma ManageUsersMatchesGate(s: BackendUsers.Store, token: Crypto.Token, now: int)
    requires BackendSecurity.RequireAuth(s, token, now).Ok?
    ensures ShowsManageUsers(Some(BackendUsers.RoleValue(BackendSecurity.RequireAuth(s, token, now).value.role)))
            <==> BackendSecurity.RequireRoles(s, token, now, ["admin", "developer"]).Ok?
  {
  }
}
