/**
 * The project-details page (src/pages/ProjectDetails.tsx): the page state holds the
 * fetched test cases and the selected project; a tester's dropdown replaces the status
 * of a case, and the page derives status counts and the completion percentage.
 */
module ProjectDetails {
  import opened Wrappers
  import opened ProjectTypes
  import A = Aggregation

  /** The page's local test-case shape. */
  datatype TestCase = TestCase(id: string, title: string, status: A.Status)

  function Statuses(cases: seq<TestCase>): (ss: seq<A.Status>)
    ensures |ss| == |cases|
    ensures forall i :: 0 <= i < |cases| ==> ss[i] == cases[i].status
  {
    seq(|cases|, i requires 0 <= i < |cases| => cases[i].status)
  }

  /** `testCases.map(tc => tc.id === id ? { ...tc, status: newStatus } : tc)`. */
  function WithStatus(cases: seq<TestCase>, id: string, s: A.Status): (r: seq<TestCase>)
    ensures |r| == |cases|
    ensures forall i :: 0 <= i < |cases| && cases[i].id == id ==>
      r[i].status == s && r[i].id == id && r[i].title == cases[i].title
    ensures forall i :: 0 <= i < |cases| && cases[i].id != id ==> r[i] == cases[i]
  {
    if cases == [] then []
    else
      var tc := cases[0];
      [if tc.id == id then tc.(status := s) else tc] + WithStatus(cases[1..], id, s)
  }

  /** Choosing a status for an id that no case carries changes nothing. */
  lemma AbsentIdLeavesCases(cases: seq<TestCase>, id: string, s: A.Status)
    requires forall i :: 0 <= i < |cases| ==> cases[i].id != id
    ensures WithStatus(cases, id, s) == cases
  {
  }

  /** Choosing the same status twice is the same as choosing it once. */
  lemma StatusChangeIdempotent(cases: seq<TestCase>, id: string, s: A.Status)
    ensures WithStatus(WithStatus(cases, id, s), id, s) == WithStatus(cases, id, s)
  {
  }

  /** After the change every case with that id shows the chosen status, so its count is positive. */
  lemma ChosenStatusIsCounted(cases: seq<TestCase>, id: string, s: A.Status, k: nat)
    requires k < |cases| && cases[k].id == id
    ensures A.CountOf(Statuses(WithStatus(cases, id, s)), s) > 0
  {
    assert Statuses(WithStatus(cases, id, s))[k] == s;
  }

  /** Failed counts as completed: marking a case Failed moves the progress exactly as marking it Passed. */
  lemma FailedProgressesLikePassed(cases: seq<TestCase>, id: string)
    ensures A.ProgressPercent(Statuses(WithStatus(cases, id, A.Failed)))
         == A.ProgressPercent(Statuses(WithStatus(cases, id, A.Passed)))
  {
    A.ResolvedDependsOnResolution(Statuses(WithStatus(cases, id, A.Failed)),
                                  Statuses(WithStatus(cases, id, A.Passed)));
  }

  /** The page state: what `useState` holds for the test cases and the selected project. */
  class DetailsPage {
    const routeId: string
    var testCases: seq<TestCase>
    var project: Option<Project>

    constructor (routeId: string)
      ensures this.routeId == routeId && testCases == [] && project == None
    {
      this.routeId := routeId;
      testCases := [];
      project := None;
    }

    /** `statusCounts`: all four keys, counts adding up to the number of cases. */
    function StatusCounts(): (m: map<string, nat>)
      reads this
      ensures m.Keys == A.Labels
      ensures forall s :: m[A.Label(s)] == A.CountOf(Statuses(testCases), s)
      ensures m["Pending"] + m["In Progress"] + m["Passed"] + m["Failed"] == |testCases|
    {
      A.StatusCountsAddUp(Statuses(testCases));
      A.StatusCounts(Statuses(testCases))
    }

    /** `completed`: Passed plus Failed. */
    function Completed(): (n: nat)
      reads this
      ensures n == StatusCounts()["Passed"] + StatusCounts()["Failed"]
      ensures n <= |testCases|
    {
      A.Resolved(Statuses(testCases))
    }

    /** `progressPercent`: zero without cases, otherwise round(100 · completed / total). */
    function ProgressPercent(): (p: int)
      reads this
      ensures 0 <= p <= 100
      ensures testCases == [] ==> p == 0
      ensures testCases != [] ==>
        2 * |testCases| * p <= 200 * Completed() + |testCases| < 2 * |testCases| * p + 2 * |testCases|
    {
      A.ProgressPercent(Statuses(testCases))
    }

    /**
     * The project lookup after the fetch: the first project shown at this route, or an
     * error notification and no change of the selected project.
     */
    method LoadProject(fetched: seq<Project>) returns (notFound: bool)
      modifies this
      ensures notFound <==> forall p :: p in fetched ==> !ShownAt(p, routeId)
      ensures notFound ==> project == old(project)
      ensures !notFound ==> project == FindShown(fetched, routeId)
      ensures project.Some? && !notFound ==> project.value in fetched && ShownAt(project.value, routeId)
      ensures testCases == old(testCases)
    {
      var found := FindShown(fetched, routeId);
      notFound := found.None?;
      if !notFound {
        project := found;
      }
    }

    /** `setTestCases(testCasesData)` once the fetch has answered. */
    method LoadTestCases(fetched: seq<TestCase>)
      modifies this
      ensures testCases == fetched && project == old(project)
    {
      testCases := fetched;
    }

    /** `handleStatusChange`: the dropdown's choice replaces the status of the cases with that id. */
    method UpdateStatus(id: string, s: A.Status)
      modifies this
      ensures testCases == WithStatus(old(testCases), id, s)
      ensures project == old(project)
      ensures |testCases| == |old(testCases)|
      ensures StatusCounts()["Pending"] + StatusCounts()["In Progress"]
            + StatusCounts()["Passed"] + StatusCounts()["Failed"] == |old(testCases)|
    {
      testCases := WithStatus(testCases, id, s);
    }
  }
}
