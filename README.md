# TestMagic front end: a Dafny model of its page logic

TestMagic is a test-case-management web front end. An admin signs in, creates projects
(name, status, test lead, testers) and watches a dashboard of them. A tester opens a project,
sets the status of each test case (Pending, In Progress, Passed, Failed) and reads a report
with status counts and a completion percentage. Sessions live in the browser's localStorage.

This project models the deterministic rules inside those pages and proves what they promise:

- `Aggregation` — the report aggregator the details page and the report page share: the
  status enum, per-status counts keyed by label (all four keys always present, summing to the
  number of cases), the resolved count (Passed + Failed) and the percentage, rounded the way
  `Math.round` rounds. That is `(200·c + t) / (2·t)` with Dafny's floor division, proved to be
  the nearest integer to 100·c/t with halves going up.
- `ProjectTypes` — the `Project` record and the project lookup both pages run: the first
  project whose stringified id equals the route id and whose testers include "Rutik Erole".
- `ProjectDetails` — the page state as a class (`DetailsPage`): loading the project, loading
  the cases, and the dropdown's status change, which is proved to change only the cases with
  that id.
- `ReportPage` — the report's counts, bubbles, "Test Cases" card, percentage and project selection.
- `Storage`, `SessionJson` — localStorage as a class over a `map<string, string>`, and the
  JSON text of the `{email, role}` session record, with a proved decode-after-encode round trip.
- `MockData`, `Login` — the credential list; presence validation, the lookup, and the session
  keys written on success, with the form state as a class (`LoginForm`).
- `AdminDashboard` — the status badge, per-project percentage, per-status counts, the role
  guard, logout (a loop over the four keys) and delete.
- `AddProject` — the tester checkbox toggle, the mandatory-field check and the new `Project`
  record, with the form state as a class (`ProjectForm`).

Requests to the store, the clock and the user's clicks are parameters. Notifications and
navigation are returned as outcomes and route strings.

The model follows the code as written, including:
- The status change sets the status of every case with the given id, however many there are.
- Logout leaves the session record in place (see Findings).
- A project's status can be a string outside the three statuses (see Findings).

## Model

| member | source | states |
|---|---|---|
| `ProjectTypes.FirstShownIndex` | src/pages/ProjectDetails.tsx:27-29 | the index found holds a project with the route id and the fixed tester, and no earlier project qualifies; no index means no project qualifies |
| `ProjectTypes.FindShown` | src/pages/ProjectDetails.tsx:27-33 | the project found is in the list, has the route id (an absent id reads "undefined") and lists "Rutik Erole"; nothing is found exactly when no project satisfies both |
| `ProjectTypes.UnassignedNeverShown` | src/pages/ProjectDetails.tsx:28 | a project without "Rutik Erole" never changes what the lookup finds, whatever its id |
| `Aggregation.LabelsAreDistinct` | src/pages/ProjectDetails.tsx:14 | the four status labels are distinct, and each is a key of the counts record |
| `Aggregation.CountOf` | src/pages/ProjectDetails.tsx:70-73 | a status count is at most the number of cases; it is 0 exactly when no case has that status, and it is the full length exactly when all cases do |
| `Aggregation.CountOfAppend` | src/pages/ProjectDetails.tsx:70-73 | counting over two joined lists adds the two counts |
| `Aggregation.CountsSumToLength` | src/pages/ProjectDetails.tsx:69-74 | the four counts add up to the number of cases |
| `Aggregation.StatusCounts` | src/pages/ProjectDetails.tsx:69-74 | the record has exactly the four label keys, each holding the count of its status |
| `Aggregation.StatusCountsAddUp` | src/pages/ReportPage.tsx:54-59 | the four values of the record add up to the number of cases |
| `Aggregation.Resolved` | src/pages/ProjectDetails.tsx:77 | completed (Passed + Failed) never exceeds the number of cases |
| `Aggregation.RoundPercent` | src/pages/AdminDashboard.tsx:69 | the result r satisfies 2t·r ≤ 200c + t < 2t·r + 2t, so it is round(100·c/t) with halves up; it lies in [0, 100] for 0 ≤ c ≤ t, is 0 for c = 0 and is 100 for c = t |
| `Aggregation.ProgressPercent` | src/pages/ProjectDetails.tsx:76-78 | 0 for no cases; otherwise round(100 · resolved / total) with halves up; always in [0, 100]; 100 when every case is resolved |
| `Aggregation.ResolvedDependsOnResolution` | src/pages/ProjectDetails.tsx:77 | two lists that agree on which positions are resolved have the same resolved count and the same percentage, so Failed counts as much as Passed |
| `Aggregation.ProgressExamples` | src/pages/ReportPage.tsx:73-75 | 2 of 3 resolved gives 67, 1 of 3 gives 33, 2 of 4 gives 50 |
| `ProjectDetails.WithStatus` | src/pages/ProjectDetails.tsx:82-84 | length and order are kept; every case with the id gets the new status and keeps its id and title; every other case is identical |
| `ProjectDetails.AbsentIdLeavesCases` | src/pages/ProjectDetails.tsx:82-84 | with an id no case carries, the list comes back equal to the input |
| `ProjectDetails.StatusChangeIdempotent` | src/pages/ProjectDetails.tsx:82-84 | choosing the same status twice equals choosing it once |
| `ProjectDetails.ChosenStatusIsCounted` | src/pages/ProjectDetails.tsx:81-85 | after the change, the chosen status has a positive count when the id is present |
| `ProjectDetails.FailedProgressesLikePassed` | src/pages/ProjectDetails.tsx:77-78 | marking a case Failed gives the same progress as marking it Passed |
| `ProjectDetails.DetailsPage.constructor` | src/pages/ProjectDetails.tsx:17-18 | the page starts with no cases and no project |
| `ProjectDetails.DetailsPage.StatusCounts` | src/pages/ProjectDetails.tsx:69-74 | the page's counts have all four keys, count each status among the page's cases, and add up to the number of cases |
| `ProjectDetails.DetailsPage.Completed` | src/pages/ProjectDetails.tsx:76-77 | completed is the Passed count plus the Failed count and at most the total |
| `ProjectDetails.DetailsPage.ProgressPercent` | src/pages/ProjectDetails.tsx:76-78 | the percentage is in [0, 100], 0 without cases, and the half-up rounding of 100 · completed / total otherwise |
| `ProjectDetails.DetailsPage.LoadProject` | src/pages/ProjectDetails.tsx:26-35 | a not-found error is reported exactly when no fetched project has the route id and the fixed tester; then the selected project is unchanged, otherwise it is the first such project; the cases are untouched |
| `ProjectDetails.DetailsPage.LoadTestCases` | src/pages/ProjectDetails.tsx:57-59 | the fetched cases replace the page's cases; the project is untouched |
| `ProjectDetails.DetailsPage.UpdateStatus` | src/pages/ProjectDetails.tsx:81-86 | the new cases are the status change applied to the old ones; the project is untouched; the counts still add up to the unchanged number of cases |
| `ReportPage.StatusCounts` | src/pages/ReportPage.tsx:54-59 | exactly the four status keys, each counting the matching cases, together the number of cases |
| `ReportPage.ProgressPercent` | src/pages/ReportPage.tsx:73-75 | 0 for an empty list; otherwise round(100 · (Passed + Failed) / length) with halves up; always in [0, 100] |
| `ReportPage.BubbleValue` | src/pages/ReportPage.tsx:135 | `counts[label] \|\| 0` shows the stored count when the key exists and 0 otherwise (a zero count shows 0 either way) |
| `ReportPage.Bubbles` | src/pages/ReportPage.tsx:123-135 | the four bubbles, in display order, show the Pending, In Progress, Passed and Failed counts |
| `ReportPage.TestCasesCard` | src/pages/ReportPage.tsx:104 | the "Test Cases" card equals the sum of the four status counts of the report |
| `ReportPage.BubblesAddUpToCard` | src/pages/ReportPage.tsx:104 | the four bubbles add up to the "Test Cases" card, which shows the length of the list |
| `ReportPage.SelectProject` | src/pages/ReportPage.tsx:31-35 | a project is set exactly when some fetched project has the route id and lists "Rutik Erole", and it is such a project; otherwise the not-assigned error is reported |
| `Storage.LocalStorage.GetItem` | src/pages/AdminDashboard.tsx:37 | the stored text is returned when the key exists, and null otherwise |
| `Storage.LocalStorage.SetItem` | src/components/Login.tsx:43-49 | the key is set to the value; all other keys keep their values |
| `Storage.LocalStorage.RemoveItem` | src/pages/AdminDashboard.tsx:44 | the key is gone; all other keys keep their values |
| `SessionJson.Encode` | src/components/Login.tsx:43-46 | `JSON.stringify({ email, role })` writes a text that opens with `{"email":"`, closes with `"}` and is at least as long as both fields plus that frame; that it parses back to the same record is proved by `SessionJson.DecodeEncode` |
| `SessionJson.Decode` | src/pages/AdminDashboard.tsx:38 | the guard's `JSON.parse` of the stored text: a record read back is shorter than the text it came from; on what sign-in writes it gives back the record, by `SessionJson.DecodeEncode` |
| `SessionJson.DecodeEncode` | src/components/Login.tsx:43-46 | parsing the text written for `{email, role}` gives back that email and role |
| `SessionJson.EncodeInjective` | src/components/Login.tsx:43-46 | different session records are written as different texts |
| `MockData.CredentialList` | src/utils/mockData.ts:7-9 | the list has two records: admin@testmagic.com / admin123 / admin, then tester@testmagic.com / tester123 / tester; emails are distinct |
| `MockData.RoleNames` | src/utils/mockData.ts:4 | every role is "admin" or "tester", and the two names differ |
| `Login.Validate` | src/components/Login.tsx:18-23 | an email error exactly when the email is empty and a password error exactly when the password is empty, independently, each with its message |
| `Login.FindUser` | src/components/Login.tsx:36-40 | a record found is in the list and equals the selected role, email and password, and no earlier record matches (the first match, as `find` returns); nothing is found exactly when no record does |
| `Login.AtMostOneMatch` | src/components/Login.tsx:36-40 | at most one credential record matches any role, email and password |
| `Login.Attempt` | src/components/Login.tsx:25-56 | presence errors exactly when a field is empty, and then no lookup; a role error exactly when both fields are filled and the role is empty; success only with a record matching role, email and password, routed to "/" + role; the one generic failure exactly when no record matches |
| `Login.AdminCredentialsSignIn` | src/components/Login.tsx:36-52 | admin@testmagic.com / admin123 as admin signs in as the admin record and goes to "/admin" |
| `Login.WrongPasswordDenied` | src/components/Login.tsx:53-55 | the admin email with any other non-empty password gets the generic failure |
| `Login.EmptyEmailOnly` | src/components/Login.tsx:18-30 | an empty email with a non-empty password yields only the email error |
| `Login.SessionWrites` | src/components/Login.tsx:42-49 | success adds exactly loggedInUser, userRole and userEmail; loggedInUser parses back to the user's email and role; every other key keeps its value |
| `Login.WriteSession` | src/components/Login.tsx:43-49 | the three `setItem` calls leave the store as described above |
| `Login.LoginForm.constructor` | src/components/Login.tsx:13-16 | the form starts on "admin" with empty fields and no errors |
| `Login.LoginForm.SelectRole` | src/components/Login.tsx:75 | a tab click sets the role name and changes nothing else |
| `Login.LoginForm.EditEmail` | src/components/Login.tsx:113 | editing the email empties the email message only; the password message is kept |
| `Login.LoginForm.EditPassword` | src/components/Login.tsx:128 | editing the password empties the password message only; the email message is kept |
| `Login.LoginForm.SignIn` | src/components/Login.tsx:25-56 | the outcome is the decision on the form values; errors are replaced only on a presence failure; the store changes only on success, and then by the three session writes |
| `AdminDashboard.StatusColor` | src/pages/AdminDashboard.tsx:59-66 | "triggered" gets the yellow badge, "ongoing" the blue one and "completed" the green one; the gray default goes exactly to text that is not one of the three statuses |
| `AdminDashboard.StatusColorTellsStatusesApart` | src/pages/AdminDashboard.tsx:59-66 | the three statuses get three different badges |
| `AdminDashboard.CompletionPercentage` | src/pages/AdminDashboard.tsx:68-70 | 0 whenever the total is not positive; otherwise round(100 · completed / total) with halves up, in [0, 100] when 0 ≤ completed ≤ total, and 100 when all are complete |
| `AdminDashboard.CountWithStatus` | src/pages/AdminDashboard.tsx:100-102 | a status card is at most the total and is 0 exactly when no project has that status |
| `AdminDashboard.CountWithStatusAppend` | src/pages/AdminDashboard.tsx:100-102 | the card for two joined lists of projects is the sum of their cards, which with `CountWithStatusSingle` fixes the `filter(...).length` value |
| `AdminDashboard.CountWithStatusSingle` | src/pages/AdminDashboard.tsx:100-102 | one project counts 1 on the card of its own status and 0 on every other card |
| `AdminDashboard.StatusCardsWithinTotal` | src/pages/AdminDashboard.tsx:99-102 | Triggered + Ongoing + Completed never exceeds the total, and equals it exactly when every status is one of the three |
| `AdminDashboard.AdminSignInPassesGuard` | src/pages/AdminDashboard.tsx:36-40 | after an admin signs in, the guard does not redirect |
| `AdminDashboard.TesterSignInFailsGuard` | src/pages/AdminDashboard.tsx:36-40 | after a tester signs in, the guard redirects |
| `AdminDashboard.AfterLogout` | src/pages/AdminDashboard.tsx:43-44 | the four logout keys are gone; every other key, loggedInUser included, keeps its value; no key is added |
| `AdminDashboard.Dashboard.constructor` | src/pages/AdminDashboard.tsx:15 | the dashboard starts with no projects |
| `AdminDashboard.Dashboard.LoadProjects` | src/pages/AdminDashboard.tsx:25-26 | the fetched list replaces the projects |
| `AdminDashboard.Dashboard.Guard` | src/pages/AdminDashboard.tsx:36-40 | redirects to "/" exactly when loggedInUser is absent or empty, or does not read as a record with role "admin" |
| `AdminDashboard.Dashboard.Logout` | src/pages/AdminDashboard.tsx:43-47 | removing the keys one by one leaves the store as described for logout, and the route is "/" |
| `AdminDashboard.Dashboard.Delete` | src/pages/AdminDashboard.tsx:49-57 | a failure is reported exactly when the store refuses; the projects list is not modified either way |
| `AdminDashboard.LogoutKeepsAdminAccess` | src/pages/AdminDashboard.tsx:43-47 | if the guard admitted before logout, it still admits after |
| `AdminDashboard.AdminStillAdmittedAfterLogout` | src/pages/AdminDashboard.tsx:43-47 | an admin who signs in and then logs out is still admitted by the guard |
| `AdminDashboard.EndSession` | src/pages/AdminDashboard.tsx:43-47 | removing loggedInUser as well as the four keys makes the guard redirect, and keeps every other key |
| `AddProject.ToLower` | src/pages/AddProject.tsx:37 | same length; each character lower-cased |
| `AddProject.Without` | src/pages/AddProject.tsx:184 | the tester no longer occurs; every other name occurs exactly when it occurred before; the list does not grow |
| `AddProject.WithoutAbsent` | src/pages/AddProject.tsx:184 | filtering out a name that is absent returns the list unchanged |
| `AddProject.WithoutAppend` | src/pages/AddProject.tsx:184 | filtering a joined list is joining the filtered parts |
| `AddProject.Toggle` | src/pages/AddProject.tsx:182-186 | the tester is in the result exactly when it was not in the list; other names are unaffected; an absent tester is appended at the end; a present one is removed everywhere, so the list shrinks |
| `AddProject.ToggleStaysWithinOffered` | src/pages/AddProject.tsx:21 | toggling names from the offered testers list keeps every selected tester within that list |
| `AddProject.ToggleTwiceRestores` | src/pages/AddProject.tsx:183-185 | toggling an absent tester twice gives back the original list |
| `AddProject.ToggleKeepsNoDuplicates` | src/pages/AddProject.tsx:183-185 | a list without duplicates stays without duplicates |
| `AddProject.OfferedLeadSatisfiesGuard` | src/pages/AddProject.tsx:20 | with a lead chosen from the offered list, the mandatory-field guard blocks exactly when the name or the status is empty |
| `AddProject.BuildProject` | src/pages/AddProject.tsx:35-44 | no id; name, description, test lead, testers and date carried unchanged; both counters 0, so completed ≤ total; status is the lower-cased selection; there is no end-date or file input |
| `AddProject.ProjectForm.constructor` | src/pages/AddProject.tsx:12-18 | the form starts with status "Triggered" and every other field empty |
| `AddProject.ProjectForm.ChooseStatus` | src/pages/AddProject.tsx:94 | the selected option value becomes the status; the other fields are kept |
| `AddProject.ProjectForm.ToggleTester` | src/pages/AddProject.tsx:182-186 | the testers become the toggle of the old testers; the other fields are kept |
| `AddProject.ProjectForm.Submit` | src/pages/AddProject.tsx:29-54 | blocked with the mandatory-fields message exactly when name, status or test lead is empty, with no record built; otherwise the record built from the fields is sent; the admin view follows exactly when the store accepts it |
| `AddProject.OptionStatusesEscapeEnum` | src/pages/AddProject.tsx:95-97 | the initial "Triggered" gives "triggered", but the options "Trigger" and "Complete" give "trigger" and "complete", which are not statuses; a project built from either option gets the gray badge and counts 0 on each of the Triggered, Ongoing and Completed cards |
| `AddProject.IntendedOptionsYieldProjectStatus` | src/pages/AddProject.tsx:95-97 | the options "Triggered", "Ongoing", "Completed" lower-case to the three distinct statuses |

## Findings

| source | as written | input that shows it | evidently intended | confidence | as-written member | corrected member |
|---|---|---|---|---|---|---|
| src/pages/AdminDashboard.tsx:43-47 | logout removes userRole, userEmail, authToken and isLoggedIn, but not loggedInUser, the only key the admin guard reads | sign in as admin@testmagic.com / admin123, log out, open /admin again: the guard does not redirect | signing out removes the session record, so the guard redirects afterwards | high (not executed) | `AdminDashboard.AdminStillAdmittedAfterLogout` | `AdminDashboard.EndSession` |
| src/pages/AddProject.tsx:95-97 | the status options carry the values "Trigger", "Ongoing", "Complete", which lower-case to "trigger", "ongoing", "complete" | choose "Complete" (or another option and then "Triggered" again) and submit: the stored status is "complete" (or "trigger") | the values lower-case to the statuses "completed" and "triggered" | high (not executed) | `AddProject.OptionStatusesEscapeEnum` | `AddProject.IntendedOptionsYieldProjectStatus` |

The model keeps the code as written in `Dashboard.Logout` and `ProjectForm.ChooseStatus`.
The corrected members give the intended behaviour with its property proved.

## Left out

- Requests to the store are not modelled: `getProjects`, `addProject`, `deleteProject` (src/utils/projectServices.ts) and the two `fetch` calls of the test cases. The api module they use is not part of this model. Fetched lists are inputs to the pages' load methods, and the store's answer to a delete or add is a boolean parameter. The catch branches of the fetches only show a notification.
- React effect ordering, asynchronous resolution and updates after unmount are not modelled, because they are event-loop scheduling, not page logic.
- `Aggregation.RoundPercent`: integer half-up rounding, not the floating-point `Math.round(c / t * 100)`. The two can differ only at exact halves, where the floating-point product may land just below .5.
- `AdminDashboard.Dashboard.Guard`: reads `loggedInUser` only in the shape sign-in writes: `{"email":…,"role":…}`, no white space, only quote and backslash escaped. Other stored text is treated as "not an admin", so the guard redirects. The browser would accept other JSON objects with role "admin" (other key order, white space, extra keys). It would also throw on malformed text and then not redirect.
- `SessionJson.Decode`: reads only the shape sign-in writes: `{"email":"…","role":"…"}`, no white space, only quote and backslash escaped. Any other JSON text reads as no record, including other key order, white space and extra keys. Malformed text gives None, where `JSON.parse` throws. Matching the whole JSON grammar is not needed to state what sign-in writes and the guard reads back.
- `SessionJson.Encode` escapes only quote and backslash. `JSON.stringify` also escapes control characters. The credential records contain none.
- `AddProject.ToLower` lower-cases ASCII letters only. `toLowerCase` follows Unicode. The option values are ASCII.
- Dates are not modelled: `new Date().toISOString()` becomes the `today` parameter of `Submit`, and `toLocaleDateString` is display only. Both depend on the clock and the locale.
- Notifications and console logging are not modelled: notifications are returned outcomes, messages and flags.
- Navigation targets built inline in buttons are not modelled: Back, Details, View Report, Add New Project and Cancel. Each is a fixed or role-chosen route string with no further logic. Navigation decided by the modelled logic is returned as a route string: sign-in to "/" + role, the guard and logout to "/", and a saved project to "/admin".
- Presentational code is not modelled: charts (pieCharts, barGraph), stats cards, the login page, the route table, CSS classes other than the status badge, the report's static summary text, the "10 Linked" text on the details page, and the empty download handler.
- The form's other setters (name, description, test lead, end date, file) are not modelled. Each only replaces its own field. End date and file never reach the built record, which `BuildProject` shows by having no such inputs.
