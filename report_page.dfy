/**
 * The report page (src/pages/ReportPage.tsx): status counts, the four status bubbles,
 * the "Test Cases" info card, the completion percentage and the project selection,
 * all derived from the fetched lists.
 */
module ReportPage {
  import opened Wrappers
  import opened ProjectTypes
  import A = Aggregation

  datatype Priority = Low | Medium | High

  /** The page's local test-case shape. */
  datatype ReportCase = ReportCase(
    id: string,
    title: string,
    status: A.Status,
    priority: Priority,
    tester: string,
    project: string)

  function Statuses(cases: seq<ReportCase>): (ss: seq<A.Status>)
    ensures |ss| == |cases|
    ensures forall i :: 0 <= i < |cases| ==> ss[i] == cases[i].status
  {
    seq(|cases|, i requires 0 <= i < |cases| => cases[i].status)
  }

  /** `statusCounts`: exactly the four status keys, each counting the cases with that status. */
  function StatusCounts(cases: seq<ReportCase>): (m: map<string, nat>)
    ensures m.Keys == A.Labels
    ensures forall s :: m[A.Label(s)] == A.CountOf(Statuses(cases), s)
    ensures m["Pending"] + m["In Progress"] + m["Passed"] + m["Failed"] == |cases|
  {
    A.StatusCountsAddUp(Statuses(cases));
    A.StatusCounts(Statuses(cases))
  }

  /** `progressPercent`: 0 for an empty list, otherwise round(100 · (Passed + Failed) / length). */
  function ProgressPercent(cases: seq<ReportCase>): (p: int)
    ensures 0 <= p <= 100
    ensures cases == [] ==> p == 0
    ensures var done := StatusCounts(cases)["Passed"] + StatusCounts(cases)["Failed"];
      cases != [] ==> 2 * |cases| * p <= 200 * done + |cases| < 2 * |cases| * p + 2 * |cases|
  {
    A.ProgressPercent(Statuses(cases))
  }

  /** The labels of the four bubbles, in display order, and the status each one stands for. */
  const BubbleLabels: seq<string> := ["Pending", "In Progress", "Passed", "Failed"]
  const BubbleStatuses: seq<A.Status> := [A.Pending, A.InProgress, A.Passed, A.Failed]

  /** `statusCounts[label] || 0`: a missing key, and a zero, both show 0. */
  function BubbleValue(counts: map<string, nat>, name: string): (v: nat)
    ensures v == if name in counts then counts[name] else 0
  {
    if name in counts && counts[name] != 0 then counts[name] else 0
  }

  /** The four numbers the bubbles show, in display order. */
  function Bubbles(cases: seq<ReportCase>): (vs: seq<nat>)
    ensures |vs| == 4
    ensures forall i :: 0 <= i < 4 ==> vs[i] == A.CountOf(Statuses(cases), BubbleStatuses[i])
  {
    var counts := StatusCounts(cases);
    assert forall i :: 0 <= i < 4 ==> BubbleLabels[i] == A.Label(BubbleStatuses[i]);
    seq(4, i requires 0 <= i < 4 => BubbleValue(counts, BubbleLabels[i]))
  }

  /** The value of the "Test Cases" info card. */
  function TestCasesCard(cases: seq<ReportCase>): (n: nat)
    ensures n == StatusCounts(cases)["Pending"] + StatusCounts(cases)["In Progress"]
               + StatusCounts(cases)["Passed"] + StatusCounts(cases)["Failed"]
  {
    |cases|
  }

  /** The four bubbles account for every case the info card counts. */
  lemma BubblesAddUpToCard(cases: seq<ReportCase>)
    ensures var vs := Bubbles(cases); vs[0] + vs[1] + vs[2] + vs[3] == TestCasesCard(cases)
  {
    A.CountsSumToLength(Statuses(cases));
  }

  const NotAssignedMessage: string := "Project not found or not assigned to you"

  /**
   * The project selection: the first fetched project whose id matches the route and that
   * lists the fixed tester; otherwise the not-assigned error and no project.
   */
  function SelectProject(projects: seq<Project>, routeId: string): (r: Result<Project, string>)
    ensures r.Ok? <==> exists p :: p in projects && ShownAt(p, routeId)
    ensures r.Ok? ==> r.value in projects && IdText(r.value.id) == routeId
    ensures r.Ok? ==> AssignedTester in r.value.testers
    ensures r.Err? ==> r.error == NotAssignedMessage
  {
    match FindShown(projects, routeId)
    case Some(p) => Ok(p)
    case None => Err(NotAssignedMessage)
  }
}
