/**
 * The admin dashboard (src/pages/AdminDashboard.tsx): the role guard over localStorage,
 * logout, delete, the status badge, per-status project counts and the per-project
 * completion percentage.
 */
module AdminDashboard {
  import opened Wrappers
  import opened ProjectTypes
  import opened Storage
  import opened SessionJson
  import opened MockData
  import Login
  import A = Aggregation

  const TriggeredBadge: string := "bg-yellow-100 text-yellow-800 border-yellow-200"
  const OngoingBadge: string := "bg-blue-100 text-blue-800 border-blue-200"
  const CompletedBadge: string := "bg-green-100 text-green-800 border-green-200"
  const DefaultBadge: string := "bg-gray-100 text-gray-800 border-gray-200"

  /** `getStatusColor`: yellow, blue and green for the three statuses, gray for any other text. */
  function StatusColor(status: string): (c: string)
    ensures c == DefaultBadge <==> !IsProjectStatus(status)
    ensures c in {TriggeredBadge, OngoingBadge, CompletedBadge, DefaultBadge}
    ensures status == Triggered ==> c == TriggeredBadge
    ensures status == Ongoing ==> c == OngoingBadge
    ensures status == Completed ==> c == CompletedBadge
  {
    if status == Triggered then TriggeredBadge
    else if status == Ongoing then OngoingBadge
    else if status == Completed then CompletedBadge
    else DefaultBadge
  }

  /** The three statuses get three different badges. */
  lemma StatusColorTellsStatusesApart(s: string, t: string)
    requires IsProjectStatus(s) && IsProjectStatus(t) && StatusColor(s) == StatusColor(t)
    ensures s == t
  {
  }

  /** `getCompletionPercentage(completed, total)`: 0 without a positive total, else round(100 · completed / total). */
  function CompletionPercentage(completed: int, total: int): (r: int)
    ensures total <= 0 ==> r == 0
    ensures total > 0 ==> 2 * total * r <= 200 * completed + total < 2 * total * r + 2 * total
    ensures 0 <= completed <= total ==> 0 <= r <= 100
    ensures 0 < completed == total ==> r == 100
  {
    if total > 0 then A.RoundPercent(completed, total) else 0
  }

  /** `projects.filter(p => p.status === status).length`. */
  function CountWithStatus(projects: seq<Project>, status: string): (n: nat)
    ensures n <= |projects|
    ensures n == 0 <==> forall i :: 0 <= i < |projects| ==> projects[i].status != status
  {
    if projects == [] then 0
    else
      var rest := projects[..|projects| - 1];
      assert forall i :: 0 <= i < |rest| ==> rest[i] == projects[i];
      CountWithStatus(rest, status) + (if projects[|projects| - 1].status == status then 1 else 0)
  }

  /** The card for a single project: 1 when its status is the one counted, else 0. */
  lemma CountWithStatusSingle(p: Project, status: string)
    ensures CountWithStatus([p], status) == if p.status == status then 1 else 0
  {
    assert [p][..0] == [];
  }

  /** The card for two joined lists is the sum of their cards. */
  lemma {:induction false} CountWithStatusAppend(a: seq<Project>, b: seq<Project>, status: string)
    ensures CountWithStatus(a + b, status) == CountWithStatus(a, status) + CountWithStatus(b, status)
    decreases |b|
  {
    if b == [] {
      assert a + b == a;
    } else {
      var ab := a + b;
      var last := b[|b| - 1];
      assert ab[..|ab| - 1] == a + b[..|b| - 1];
      assert ab[|ab| - 1] == last;
      CountWithStatusAppend(a, b[..|b| - 1], status);
      assert CountWithStatus(ab, status)
          == CountWithStatus(a + b[..|b| - 1], status) + (if last.status == status then 1 else 0);
      assert CountWithStatus(b, status)
          == CountWithStatus(b[..|b| - 1], status) + (if last.status == status then 1 else 0);
    }
  }

  /**
   * The Triggered, Ongoing and Completed cards never add up to more than the Total card,
   * and add up to it exactly when every project carries one of the three statuses.
   */
  lemma {:induction false} StatusCardsWithinTotal(projects: seq<Project>)
    ensures CountWithStatus(projects, Triggered) + CountWithStatus(projects, Ongoing)
          + CountWithStatus(projects, Completed) <= |projects|
    ensures CountWithStatus(projects, Triggered) + CountWithStatus(projects, Ongoing)
          + CountWithStatus(projects, Completed) == |projects|
        <==> forall i :: 0 <= i < |projects| ==> IsProjectStatus(projects[i].status)
  {
    if projects != [] {
      var rest := projects[..|projects| - 1];
      StatusCardsWithinTotal(rest);
      assert forall i :: 0 <= i < |rest| ==> rest[i] == projects[i];
    }
  }

  /** The guard's reading of the store: a non-empty `loggedInUser` record whose role is "admin". */
  predicate AdminSession(items: map<string, string>) {
    && Login.LoggedInUserKey in items
    && items[Login.LoggedInUserKey] != ""
    && match Decode(items[Login.LoggedInUserKey])
       case Some(rec) => rec.role == "admin"
       case None => false
  }

  /** Signing in with the admin record lets the guard through. */
  lemma AdminSignInPassesGuard(items: map<string, string>, u: User)
    requires u in Users && u.role == Admin
    ensures AdminSession(Login.SessionWrites(items, u))
  {
  }

  /** Signing in with a tester record does not. */
  lemma TesterSignInFailsGuard(items: map<string, string>, u: User)
    requires u.role == Tester
    ensures !AdminSession(Login.SessionWrites(items, u))
  {
  }

  /** The keys `handleLogout` removes, in the order it removes them. */
  const LogoutKeys: seq<string> := ["userRole", "userEmail", "authToken", "isLoggedIn"]

  /** The store after logout: the four keys are gone and every other key keeps its value. */
  function AfterLogout(items: map<string, string>): (r: map<string, string>)
    ensures forall k :: k in LogoutKeys ==> k !in r
    ensures forall k :: k in items && k !in LogoutKeys ==> k in r && r[k] == items[k]
    ensures r.Keys <= items.Keys
  {
    items - set k | k in LogoutKeys
  }

  /** The dashboard's state and its event handlers. */
  class Dashboard {
    var projects: seq<Project>

    constructor ()
      ensures projects == []
    {
      projects := [];
    }

    /** `setProjects(res.data)` once the fetch has answered. */
    method LoadProjects(fetched: seq<Project>)
      modifies this
      ensures projects == fetched
    {
      projects := fetched;
    }

    /** The guard effect: the route to redirect to, if the visitor is not a signed-in admin. */
    method Guard(store: LocalStorage) returns (redirect: Option<string>)
      ensures redirect.None? <==> AdminSession(store.items)
      ensures redirect.Some? ==> redirect.value == "/"
    {
      var userString := store.GetItem(Login.LoggedInUserKey);
      var user := if userString.Some? && userString.value != "" then Decode(userString.value) else None;
      if user.None? || user.value.role != "admin" {
        redirect := Some("/");
      } else {
        redirect := None;
      }
    }

    /** `handleLogout`: removes the four keys one by one, then goes to "/". */
    method Logout(store: LocalStorage) returns (route: string)
      modifies store
      ensures store.items == AfterLogout(old(store.items))
      ensures route == "/"
    {
      var keys := LogoutKeys;
      var i := 0;
      while i < |keys|
        invariant 0 <= i <= |keys|
        invariant store.items == old(store.items) - (set j | 0 <= j < i :: keys[j])
      {
        assert (set j | 0 <= j < i + 1 :: keys[j]) == (set j | 0 <= j < i :: keys[j]) + {keys[i]};
        store.RemoveItem(keys[i]);
        i := i + 1;
      }
      assert (set j | 0 <= j < |keys| :: keys[j]) == set k | k in LogoutKeys;
      route := "/";
    }

    /**
     * `handleDelete`: the store's answer is a parameter; a failure is reported, and in either
     * case the list on screen is left as it is (the method may not modify the dashboard).
     */
    method Delete(projectId: string, storeAccepted: bool) returns (reportedFailure: bool)
      ensures reportedFailure <==> !storeAccepted
    {
      reportedFailure := !storeAccepted;
    }
  }

  /**
   * As written, logout keeps `loggedInUser`, the only key the guard reads: a signed-in
   * admin who logs out is still let through.
   */
  lemma LogoutKeepsAdminAccess(items: map<string, string>)
    requires AdminSession(items)
    ensures AdminSession(AfterLogout(items))
  {
  }

  /** The concrete scenario: admin signs in, logs out, and the guard still admits. */
  lemma AdminStillAdmittedAfterLogout()
    ensures AdminSession(AfterLogout(Login.SessionWrites(map[], Users[0])))
  {
    AdminSignInPassesGuard(map[], Users[0]);
    LogoutKeepsAdminAccess(Login.SessionWrites(map[], Users[0]));
  }

  /** Ending the session as intended: the logout keys and the session record itself. */
  function EndSession(items: map<string, string>): (r: map<string, string>)
    ensures !AdminSession(r)
    ensures Login.LoggedInUserKey !in r
    ensures forall k :: k in LogoutKeys ==> k !in r
    ensures forall k :: k in items && k !in LogoutKeys && k != Login.LoggedInUserKey ==> k in r && r[k] == items[k]
  {
    AfterLogout(items) - {Login.LoggedInUserKey}
  }
}
