/**
 * The project-creation form (src/pages/AddProject.tsx): the tester checkboxes, the
 * mandatory-field check and the Project record built on submit.
 */
module AddProject {
  import opened Wrappers
  import opened ProjectTypes
  import AdminDashboard

  const TestLeads: seq<string> := ["Shraddha Chaudhari", "Varsha Patil", "Namrata Shinde"]
  const TestersList: seq<string> :=
    ["Rutik Erole", "Shweta Pardeshi", "Parth Supekar", "Mayur Bidkar", "Shruti Sancheti"]

  /** The status the form starts with, and the values its three options carry. */
  const InitialStatus: string := "Triggered"
  const StatusOptions: seq<string> := ["Trigger", "Ongoing", "Complete"]

  const MandatoryMessage: string := "Please fill in all mandatory fields."
  const SaveFailedMessage: string := "Something went wrong. Please try again."

  function LowerChar(c: char): char {
    if 'A' <= c <= 'Z' then (c as int + 32) as char else c
  }

  /** `toLowerCase()`, on the ASCII letters. */
  function ToLower(s: string): (r: string)
    ensures |r| == |s|
    ensures forall i :: 0 <= i < |s| ==> r[i] == LowerChar(s[i])
  {
    seq(|s|, i requires 0 <= i < |s| => LowerChar(s[i]))
  }

  /** `testers.filter(t => t !== tester)`. */
  function Without(testers: seq<string>, tester: string): (r: seq<string>)
    ensures tester !in r
    ensures forall x :: x != tester ==> (x in r <==> x in testers)
    ensures |r| <= |testers|
  {
    if testers == [] then []
    else if testers[0] == tester then Without(testers[1..], tester)
    else [testers[0]] + Without(testers[1..], tester)
  }

  /** Filtering out a name that is not there keeps the list as it is. */
  lemma {:induction false} WithoutAbsent(testers: seq<string>, tester: string)
    requires tester !in testers
    ensures Without(testers, tester) == testers
  {
    if testers != [] {
      WithoutAbsent(testers[1..], tester);
    }
  }

  lemma {:induction false} WithoutAppend(a: seq<string>, b: seq<string>, tester: string)
    ensures Without(a + b, tester) == Without(a, tester) + Without(b, tester)
  {
    if a == [] {
      assert a + b == b;
    } else {
      assert (a + b)[0] == a[0] && (a + b)[1..] == a[1..] + b;
      WithoutAppend(a[1..], b, tester);
    }
  }

  /** The checkbox handler: a listed tester is removed everywhere, an unlisted one appended at the end. */
  function Toggle(testers: seq<string>, tester: string): (r: seq<string>)
    ensures tester in r <==> tester !in testers
    ensures forall x :: x != tester ==> (x in r <==> x in testers)
    ensures tester !in testers ==> r == testers + [tester]
    ensures tester in testers ==> |r| < |testers|
  {
    WithoutShrinks(testers, tester);
    if tester in testers then Without(testers, tester) else testers + [tester]
  }

  lemma {:induction false} WithoutShrinks(testers: seq<string>, tester: string)
    ensures tester in testers ==> |Without(testers, tester)| < |testers|
  {
    if testers != [] && testers[0] != tester {
      WithoutShrinks(testers[1..], tester);
    }
  }

  /** Ticking an unticked tester and unticking it again gives back the same list. */
  lemma ToggleTwiceRestores(testers: seq<string>, tester: string)
    requires tester !in testers
    ensures Toggle(Toggle(testers, tester), tester) == testers
  {
    WithoutAppend(testers, [tester], tester);
    WithoutAbsent(testers, tester);
    assert Without([tester], tester) == [];
  }

  predicate NoDuplicates(s: seq<string>) {
    forall i, j :: 0 <= i < j < |s| ==> s[i] != s[j]
  }

  lemma {:induction false} WithoutKeepsNoDuplicates(testers: seq<string>, tester: string)
    requires NoDuplicates(testers)
    ensures NoDuplicates(Without(testers, tester))
  {
    if testers != [] {
      var rest := testers[1..];
      assert NoDuplicates(rest) by {
        forall i, j | 0 <= i < j < |rest| ensures rest[i] != rest[j] {
          assert rest[i] == testers[i + 1] && rest[j] == testers[j + 1];
        }
      }
      WithoutKeepsNoDuplicates(rest, tester);
      if testers[0] != tester {
        assert testers[0] !in rest by {
          forall k | 0 <= k < |rest| ensures rest[k] != testers[0] {
            assert rest[k] == testers[k + 1];
          }
        }
        var w := Without(rest, tester);
        assert testers[0] !in w;
        var r := [testers[0]] + w;
        forall i, j | 0 <= i < j < |r| ensures r[i] != r[j] {
          if i == 0 {
            assert r[j] == w[j - 1];
          } else {
            assert r[i] == w[i - 1] && r[j] == w[j - 1];
          }
        }
      }
    }
  }

  /** Toggling never introduces a duplicate name. */
  lemma ToggleKeepsNoDuplicates(testers: seq<string>, tester: string)
    requires NoDuplicates(testers)
    ensures NoDuplicates(Toggle(testers, tester))
  {
    if tester in testers {
      WithoutKeepsNoDuplicates(testers, tester);
    } else {
      var r := testers + [tester];
      forall i, j | 0 <= i < j < |r| ensures r[i] != r[j] {
        if j == |testers| {
          assert r[i] == testers[i];
        }
      }
    }
  }

  /** Checkboxes are offered only for `TestersList`, so toggling them keeps the testers within that list. */
  lemma ToggleStaysWithinOffered(testers: seq<string>, tester: string)
    requires forall t :: t in testers ==> t in TestersList
    requires tester in TestersList
    ensures forall t :: t in Toggle(testers, tester) ==> t in TestersList
  {
  }

  /** The `handleSubmit` guard. */
  predicate MandatoryMissing(name: string, status: string, testLead: string) {
    name == "" || status == "" || testLead == ""
  }

  /** Every lead the dropdown offers is non-empty, so picking one satisfies that part of the guard. */
  lemma OfferedLeadSatisfiesGuard(name: string, status: string, lead: string)
    requires lead in TestLeads
    ensures MandatoryMissing(name, status, lead) <==> name == "" || status == ""
  {
  }

  /**
   * `newProject`: no id yet, counters at zero, the status lower-cased and the other fields
   * carried over unchanged. The end date and the uploaded file are not parameters: they
   * never reach the record.
   */
  function BuildProject(name: string, status: string, description: string, testLead: string,
                        testers: seq<string>, createdAt: string): (p: Project)
    ensures p.id.None?
    ensures p.name == name && p.description == Some(description)
    ensures p.testLead == testLead && p.testers == testers && p.createdAt == createdAt
    ensures p.totalTestCases == 0 && p.completedTestCases == 0
    ensures 0 <= p.completedTestCases <= p.totalTestCases
    ensures |p.status| == |status| && forall i :: 0 <= i < |status| ==> p.status[i] == LowerChar(status[i])
  {
    Project(None, name, ToLower(status), Some(description), testLead, testers, 0, 0, createdAt)
  }

  /** What pressing Submit ends in. */
  datatype SubmitOutcome =
    | Blocked(message: string)
    | SaveFailed(draft: Project, message: string)
    | Saved(draft: Project, route: string)

  /** The form state held in `useState`. */
  class ProjectForm {
    var name: string
    var status: string
    var description: string
    var testLead: string
    var testers: seq<string>
    var endDate: string
    var upload: Option<string>

    constructor ()
      ensures name == "" && status == InitialStatus && description == "" && testLead == ""
      ensures testers == [] && endDate == "" && upload == None
    {
      name, status, description, testLead := "", InitialStatus, "", "";
      testers, endDate, upload := [], "", None;
    }

    /** The status dropdown's `onChange`. */
    method ChooseStatus(option: string)
      modifies this
      ensures status == option
      ensures name == old(name) && description == old(description) && testLead == old(testLead)
      ensures testers == old(testers) && endDate == old(endDate) && upload == old(upload)
    {
      status := option;
    }

    /** A tester checkbox was clicked. */
    method ToggleTester(tester: string)
      modifies this
      ensures testers == Toggle(old(testers), tester)
      ensures name == old(name) && status == old(status) && description == old(description)
      ensures testLead == old(testLead) && endDate == old(endDate) && upload == old(upload)
    {
      testers := if tester in testers then Without(testers, tester) else testers + [tester];
    }

    /**
     * `handleSubmit`: blocked while a mandatory field is empty; otherwise the record is built
     * and sent, the store's answer (a parameter) deciding between the error and the admin view.
     */
    method Submit(today: string, storeAccepted: bool) returns (outcome: SubmitOutcome)
      ensures outcome.Blocked? <==> MandatoryMissing(name, status, testLead)
      ensures outcome.Blocked? ==> outcome.message == MandatoryMessage
      ensures !outcome.Blocked? ==> outcome.draft == BuildProject(name, status, description, testLead, testers, today)
      ensures outcome.Saved? <==> !MandatoryMissing(name, status, testLead) && storeAccepted
      ensures outcome.Saved? ==> outcome.route == "/admin"
      ensures outcome.SaveFailed? ==> outcome.message == SaveFailedMessage
    {
      if name == "" || status == "" || testLead == "" {
        return Blocked(MandatoryMessage);
      }
      var newProject := BuildProject(name, status, description, testLead, testers, today);
      if storeAccepted {
        outcome := Saved(newProject, "/admin");
      } else {
        outcome := SaveFailed(newProject, SaveFailedMessage);
      }
    }
  }

  /**
   * As written, the first and third options lower-case to "trigger" and "complete", which
   * are not project statuses: the dashboard shows such a project with the gray badge and in
   * none of its three status cards. Only the untouched initial value gives "triggered".
   */
  lemma OptionStatusesEscapeEnum(name: string, description: string, testLead: string,
                                 testers: seq<string>, createdAt: string)
    ensures ToLower(InitialStatus) == Triggered
    ensures ToLower(StatusOptions[0]) == "trigger" && !IsProjectStatus(ToLower(StatusOptions[0]))
    ensures ToLower(StatusOptions[2]) == "complete" && !IsProjectStatus(ToLower(StatusOptions[2]))
    ensures forall i :: i in {0, 2} ==>
      var p := BuildProject(name, StatusOptions[i], description, testLead, testers, createdAt);
      && AdminDashboard.StatusColor(p.status) == AdminDashboard.DefaultBadge
      && AdminDashboard.CountWithStatus([p], Triggered) == 0
      && AdminDashboard.CountWithStatus([p], Ongoing) == 0
      && AdminDashboard.CountWithStatus([p], Completed) == 0
  {
    assert ToLower(InitialStatus) == Triggered;
    assert ToLower(StatusOptions[0]) == "trigger";
    assert ToLower(StatusOptions[2]) == "complete";
  }

  /** The option values that lower-case into the three project statuses. */
  const IntendedStatusOptions: seq<string> := ["Triggered", "Ongoing", "Completed"]

  lemma IntendedOptionsYieldProjectStatus()
    ensures forall i :: 0 <= i < |IntendedStatusOptions| ==> IsProjectStatus(ToLower(IntendedStatusOptions[i]))
    ensures forall i, j :: 0 <= i < j < |IntendedStatusOptions| ==>
      ToLower(IntendedStatusOptions[i]) != ToLower(IntendedStatusOptions[j])
  {
    assert ToLower(IntendedStatusOptions[0]) == Triggered;
    assert ToLower(IntendedStatusOptions[1]) == Ongoing;
    assert ToLower(IntendedStatusOptions[2]) == Completed;
  }
}
