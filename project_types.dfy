/**
 * The Project record (src/utils/projectTypes.ts) and the project lookup that both the
 * project-details page and the report page run over the fetched project list.
 */
module ProjectTypes {
  import opened Wrappers

  /** The three values of the ProjectStatus union. */
  const Triggered: string := "triggered"
  const Ongoing: string := "ongoing"
  const Completed: string := "completed"

  /**
   * The status is kept as the string that is actually stored: the type declares a
   * three-value union, but nothing at run time stops another string from being stored.
   */
  predicate IsProjectStatus(s: string) {
    s == Triggered || s == Ongoing || s == Completed
  }

  /** `id` is absent before the store assigns one; `description` is optional. */
  datatype Project = Project(
    id: Option<string>,
    name: string,
    status: string,
    description: Option<string>,
    testLead: string,
    testers: seq<string>,
    totalTestCases: int,
    completedTestCases: int,
    createdAt: string)

  /** The tester name both pages look for, written into the lookup as a literal. */
  const AssignedTester: string := "Rutik Erole"

  /** `String(project.id)`: an absent id is rendered as the text "undefined". */
  function IdText(id: Option<string>): string {
    match id
    case Some(s) => s
    case None => "undefined"
  }

  /** The `find` predicate: the id matches the route parameter and the fixed tester is assigned. */
  predicate ShownAt(p: Project, routeId: string) {
    IdText(p.id) == routeId && AssignedTester in p.testers
  }

  /** Index of the first project the `find` predicate accepts, if any. */
  function FirstShownIndex(projects: seq<Project>, routeId: string): (r: Option<nat>)
    ensures r.Some? ==> r.value < |projects| && ShownAt(projects[r.value], routeId)
    ensures r.Some? ==> forall j :: 0 <= j < r.value ==> !ShownAt(projects[j], routeId)
    ensures r.None? ==> forall j :: 0 <= j < |projects| ==> !ShownAt(projects[j], routeId)
  {
    if projects == [] then None
    else if ShownAt(projects[0], routeId) then Some(0)
    else
      match FirstShownIndex(projects[1..], routeId)
      case Some(i) => Some(i + 1)
      case None => None
  }

  /** `projects.find(...)`: the first accepted project, or nothing. */
  function FindShown(projects: seq<Project>, routeId: string): (r: Option<Project>)
    ensures r.Some? ==> r.value in projects && IdText(r.value.id) == routeId
    ensures r.Some? ==> AssignedTester in r.value.testers
    ensures r.None? <==> forall p :: p in projects ==> !ShownAt(p, routeId)
  {
    match FirstShownIndex(projects, routeId)
    case Some(i) => Some(projects[i])
    case None => None
  }

  /** A project that does not list the fixed tester is never shown, whatever its id. */
  lemma UnassignedNeverShown(projects: seq<Project>, routeId: string, p: Project)
    requires AssignedTester !in p.testers
    ensures FindShown([p] + projects, routeId) == FindShown(projects, routeId)
  {
    assert ([p] + projects)[1..] == projects;
  }
}
