/** The list logic of the template dashboard's main page. Unlike the
    dashboard's own page it keeps the metrics in the order the listing
    returns them (newest first): the session pager pages through them
    unreversed, and both trend charts take the last ten as they stand. */
module TemplateDashboardPage {
  import opened Wrappers
  import opened JsArray
  import opened Grouping
  import opened Paging
  import opened Crypto
  import opened TemplateUsers
  import opened TemplateAuthRoutes

  /** A fetched metric; only the fields the list logic reads. */
  datatype Metric = Metric(id: int, project: string, timestamp: string)

  function Project(m: Metric): string {
    m.project
  }

  /** `metrics.slice(startIndex, endIndex)`: page `page` of the sessions in
      stored order. */
  function CurrentSessions(metrics: seq<Metric>, page: int): (r: seq<Metric>)
    ensures |r| <= 5
    ensures 1 <= page ==>
              forall k :: 0 <= k < |r| ==> PageStart(page) + k < |metrics| && r[k] == metrics[PageStart(page) + k]
    ensures 1 <= page <= TotalPages(|metrics|) ==> 0 < |r|
    ensures TotalPages(|metrics|) < page ==> r == []
  {
    PageOf(metrics, page)
  }

  /** Every session is listed on exactly the page its position gives, and
      that page has a button. */
  lemma SessionOnItsPage(metrics: seq<Metric>, i: nat)
    requires i < |metrics|
    ensures 1 <= i / 5 + 1 <= TotalPages(|metrics|)
    ensures i % 5 < |CurrentSessions(metrics, i / 5 + 1)|
    ensures CurrentSessions(metrics, i / 5 + 1)[i % 5] == metrics[i]
  {
    ItemOnItsPage(metrics, i);
  }

  /** Previous (`Math.max(1, currentPage - 1)`) and Next
      (`Math.min(totalPages, currentPage + 1)`), each disabled on its bound.
      There are no numbered buttons on this page. */
  function Turn(page: int, total: nat, next: bool): (p: int)
    ensures 1 <= page <= total ==> 1 <= p <= total
    ensures !next && 1 < page <= total ==> p == page - 1
    ensures next && 1 <= page < total ==> p == page + 1
    ensures !next && page == 1 ==> p == 1
    ensures next && page == total ==> p == total
  {
    Step(page, total, if next then Next else Previous)
  }

  /** From any page, enough clicks on Next reach the last page and stay
      there. */
  lemma {:induction false} NextReachesLast(page: int, total: nat, clicks: nat)
    requires 1 <= page <= total && total - page <= clicks
    ensures Turns(page, total, clicks) == total
    decreases clicks
  {
    if clicks > 0 {
      NextReachesLast(Turn(page, total, true), total, clicks - 1);
    }
  }

  /** The page after `clicks` clicks on Next. */
  function Turns(page: int, total: nat, clicks: nat): int
    decreases clicks
  {
    if clicks == 0 then page else Turns(Turn(page, total, true), total, clicks - 1)
  }

  /** `metrics.slice(-10)`, used by both the energy and the environmental
      chart: the last ten metrics (all of them when there are fewer) in
      stored order. */
  function TrendData(metrics: seq<Metric>): (r: seq<Metric>)
    ensures |r| == if |metrics| < 10 then |metrics| else 10
    ensures r == metrics[|metrics| - |r|..]
  {
    SliceLast(metrics, 10);
    Slice(metrics, -10, |metrics|)
  }

  /** The chart's data ends with the last metric fetched, and a further
      metric pushes out the oldest one shown once ten are shown. */
  lemma TrendDataAppend(metrics: seq<Metric>, m: Metric)
    ensures var t := TrendData(metrics + [m]);
            t[|t| - 1] == m
            && t[..|t| - 1] == (if |metrics| < 10 then TrendData(metrics) else TrendData(metrics)[1..])
  {
    var t := TrendData(metrics + [m]);
    assert t[..|t| - 1] == (metrics + [m])[|metrics| + 1 - |t|..|metrics|];
  }

  /** The projects of the comparison chart: `d3.group(metrics, d =>
      d.project)`'s keys, one entry per distinct project, in order of first
      appearance. */
  function ComparisonProjects(metrics: seq<Metric>): (ps: seq<string>)
    ensures forall i, j :: 0 <= i < j < |ps| ==> ps[i] != ps[j]
    ensures forall p :: p in ps <==> exists i :: 0 <= i < |metrics| && metrics[i].project == p
  {
    Keys(metrics, Project)
  }

  /** The chart has as many entries as there are distinct project names. */
  lemma ComparisonCountsProjects(metrics: seq<Metric>)
    ensures |ComparisonProjects(metrics)| == |Distinct(metrics, Project)|
  {
    DistinctCountsGroups(metrics, Project);
  }

  /** `user?.role === "admin" || user?.role === "developer"`. */
  predicate ShowsManageUsers(user: Option<User>) {
    user.Some? && (user.value.role == "admin" || user.value.role == "developer")
  }

  /** The button is shown to a signed-in user exactly when the backend's
      admin-or-developer gate lets their token through. */
  lemma ManageUsersMatchesGate(s: Store, settings: Settings, token: Token, now: int)
    requires CurrentUser(s, settings, token, now).Ok?
    ensures ShowsManageUsers(Some(CurrentUser(s, settings, token, now).value))
            <==> AdminOrDeveloperUser(s, settings, token, now).Ok?
  {
  }
}
