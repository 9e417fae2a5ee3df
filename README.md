# University contribution portal: a Dafny model of its front-end core

This project models the decision logic and the page state of a university
contribution portal's React front end (repository `resit-1640-FE`).

- **Topics and their windows.** Students submit contributions against
  time-boxed topics. Each topic is classified against the clock as
  *expired* (`endDate < today`) and *soon to expire*
  (`endDate <= today + 3 days`).
- **Topic filter and order.** Topics are filtered by a four-way status
  filter and ordered by a hand-written comparator before being listed.
- **Gates.** "Create" and "Update" for contributions are offered only while
  a topic's window allows it.
- **Pages.** Around that core sit the portal's pages:
  - the student, coordinator and guest dashboards;
  - a student's contributions to a topic;
  - the submission form;
  - the admin's user management with its create and update forms;
  - the marketing manager's faculty list;
  - the profile page;
  - the session provider, which keeps the signed-in user in session storage;
  - the statistics report panel.

## Modelling choices

- **Pure code becomes functions and lemmas.** Classification, filtering,
  comparators and rendering decisions are datatypes, functions and lemmas.
- **Components become classes.** A component's `useState` hooks become the
  fields of a `class`. Each handler becomes a `method` whose `modifies`
  clause names the fields it may assign, one by one, and whose `ensures`
  give the new value of each of them; every other field keeps its value. A `Valid()` predicate
  holds the invariant the handlers keep, such as "the delete dialog is open
  only with a user to delete".
- **Services are outcome parameters.** The backend is not part of this
  model. Each service call is a parameter that says whether the call
  succeeded (`Response<T>`: `Ok(value)` or `Failed`), and its result when
  it did. Each class keeps a `calls` trace of the requests issued, in
  order. The contracts can then state "exactly one refetch", "no call" or
  "the payload sent".
- **Modules:**

  | module | models |
  |---|---|
  | `TopicWindow` | the classifier and the status filter |
  | `TopicOrdering` | the sort, the display classes and the stable reference order |
  | `StudentDashboard`, `FmcTopicsTable`, `FmcDashboard` | the topic pages and their comparators |
  | `TopicDetail` | a student's contributions and the Update gate |
  | `ContributionDisplay` | file icons and status colours |
  | `GuestDashboard`, `ContributionsPage` | the contribution lists |
  | `CreateSubmission` | the submission form and its FormData |
  | `UserForms`, `CreateUserForm`, `UpdateUserForm` | the admin's user forms |
  | `UserTable`, `UserManagement` | the admin's user list |
  | `FacultiesManagement` | the faculty list |
  | `Profile` | the profile page |
  | `Json`, `UserContext` | the session provider and the JSON it stores |
  | `ReportContent` | the statistics panel |
  | `Seqs`, `Text`, `Entities`, `Wrappers` | shared definitions |

- **Sorting.** `Array.prototype.sort` is modelled as a stable insertion sort
  driven by the page's comparator. `TopicOrdering.Sort` puts each element
  before the first one the comparator says it precedes.
- **Gates and orderings as the code has them.**
  - On the student dashboard, "Create" is offered for every topic that is
    not expired (src/pages/Student/StudentDashboard.jsx:132).
  - On a student's contributions, "Update" is offered only when the
    `endDate` route parameter is strictly after now
    (src/pages/Student/topics/topicDetail.jsx:18, 103). The two gates
    therefore disagree exactly when the end instant is now.
  - The route that opens that page has no `endDate` parameter
    (src/routes/AppRouter.jsx:104), so "Update" is never offered there.
  - `TopicDetail.UpdateGateStricterThanCreate` and
    `TopicDetail.NoEndDateNoUpdate` state these facts.
  - The two topic comparators do not define one consistent order; see
    Findings. The model keeps both as written.
    `TopicOrdering.DisplayOrder` is the corrected order (active, then soon
    to expire, then expired, ties in fetched order) that the rest of the
    model uses.

## Model

| member | source | states |
|---|---|---|
| TopicWindow.FilterTopics | src/pages/utils.jsx:1-20 | the result keeps exactly those topics the callback accepts: "expired" keeps `isExpired`, "soonToExpire" keeps soon-and-not-expired, "active" keeps neither flag, any other value keeps all; it is no longer than the input |
| TopicWindow.IsExpired | src/pages/utils.jsx:8 | definition: a topic is expired when its end instant is strictly before `today`; `NamedFilters` and `ExpiredImpliesSoon` state its consequences |
| TopicWindow.IsSoonToExpire | src/pages/utils.jsx:9 | definition: soon to expire when the end instant is at or before `today + 3 days`, whether or not it is also expired |
| TopicWindow.Keep | src/pages/utils.jsx:11-18 | definition: the filter callback, one branch per named value and `true` for any other; `FilterTopics`, `NamedFilters` and `OtherFilterKeepsAll` state what it keeps |
| TopicWindow.NamedFilters | src/pages/utils.jsx:6-19 | on the end instant alone: "expired" is `end < today`, "soonToExpire" is `today <= end <= today+3d`, "active" is `end > today+3d`, each as an if-and-only-if over the input |
| TopicWindow.SoonFilterExcludesExpired | src/pages/utils.jsx:13-14 | the "soonToExpire" filter never returns an expired topic |
| TopicWindow.OtherFilterKeepsAll | src/pages/utils.jsx:18 | any filter value other than the three names returns the list unchanged |
| TopicWindow.ExpiredImpliesSoon | src/pages/utils.jsx:8-9 | with `today <= threeDaysFromNow`, an expired topic is also soon to expire |
| TopicWindow.NamedFiltersPartition | src/pages/utils.jsx:11-17 | the three named filters split the list: their result lengths add up to the input length |
| TopicWindow.FilterTopicsIsStableSubsequence | src/pages/utils.jsx:6 | the filter keeps fetched order (a subsequence) and applying it twice equals applying it once |
| Seqs.Filter | src/pages/utils.jsx:6 | `Array.prototype.filter`: an element is in the result exactly when it is in the input and passes the predicate; never longer than the input |
| Seqs.FilterIsSubsequence | src/pages/utils.jsx:6 | filtering keeps the surviving elements in their original order |
| Seqs.FilterIdempotent | src/pages/utils.jsx:6 | filtering twice by one predicate equals filtering once |
| Seqs.FilterKeepsAll | src/pages/utils.jsx:18 | when every element passes, the filter returns the input itself |
| Seqs.FilterDropsAll | src/pages/Student/topics/Submission/CreateSubmission.jsx:41-46 | when no element passes, the filter returns the empty list |
| Seqs.FilterAppend | src/pages/utils.jsx:6 | filtering distributes over concatenation |
| Text.Lower | src/pages/Admin/UserManagement.jsx:63 | lower-casing keeps the length and maps each character by the ASCII case mapping |
| Text.Includes | src/pages/Admin/UserManagement.jsx:117 | `includes` holds exactly when the needle occurs at some position of the haystack |
| Text.EmptyNeedleIncluded | src/pages/Admin/UserManagement.jsx:117 | every string includes the empty search term |
| Text.LowerIdempotent | src/pages/Admin/UserManagement.jsx:63 | lower-casing an already lower-cased term changes nothing |
| Text.IncludesPrefixOfNeedle | src/pages/Admin/UserManagement.jsx:117 | a haystack that contains a longer term contains each of its prefixes |
| TopicOrdering.AnnotateAll | src/pages/Student/StudentDashboard.jsx:96-103 | one annotated entry per topic at the same position, fields kept, flags `end < today` and `end <= today+3d` |
| TopicOrdering.AnnotateAllCoherent | src/pages/Student/StudentDashboard.jsx:100-101 | every annotated topic that is expired is also soon to expire |
| TopicOrdering.Insert | src/pages/Student/StudentDashboard.jsx:104 | definition: one insertion step, placing the element before the first entry the comparator says it precedes; `InsertPermutes`, `InsertSorted` and `InsertStable` state its properties |
| TopicOrdering.Sort | src/pages/Student/StudentDashboard.jsx:104-110 | definition: the stable insertion sort standing for `Array.prototype.sort`; `SortPermutes`, `SortSorted` and `SortStable` state its properties |
| TopicOrdering.InsertPermutes | src/pages/Student/StudentDashboard.jsx:104 | one insertion step adds exactly the inserted element, for any comparator |
| TopicOrdering.SortPermutes | src/pages/Student/StudentDashboard.jsx:104-110 | sorting with any comparator, consistent or not, neither loses nor adds a topic |
| TopicOrdering.InsertSorted | src/pages/Student/StudentDashboard.jsx:104-109 | inserting into a list sorted by display class keeps it sorted, for any comparator that orders by that class |
| TopicOrdering.SortSorted | src/pages/Student/StudentDashboard.jsx:104-109 | a comparator that puts the lower display class first yields a list sorted by display class |
| TopicOrdering.RankCompareAntisymmetric | src/pages/Student/StudentDashboard.jsx:104-109 | the reference comparator flips sign when its arguments swap and is a tie exactly on equal display classes |
| TopicOrdering.OfRankAppend | src/pages/Student/StudentDashboard.jsx:104-109 | the topics of one display class in a concatenation are those of each part, in order |
| TopicOrdering.InsertStable | src/pages/Student/StudentDashboard.jsx:104-109 | inserting with the reference comparator places a topic behind every earlier topic of its own class |
| TopicOrdering.SortStable | src/pages/Student/StudentDashboard.jsx:104-109 | sorting with the reference comparator keeps fetched order within each display class |
| TopicOrdering.DisplayOrder | src/pages/Student/StudentDashboard.jsx:96-110 | the intended display order: a permutation of the annotated topics, sorted active, then soon, then expired, with fetched order kept within each class |
| StudentDashboard.StudentCompare | src/pages/Student/StudentDashboard.jsx:104-109 | definition: the dashboard's comparator, rule by rule as written; `ActiveFirst`, `SoonBeforeExpired`, `SameClassTies` and `StudentCompareExpiredPair` state what it does |
| StudentDashboard.ActiveFirst | src/pages/Student/StudentDashboard.jsx:105-106 | an active topic goes before any other, in both argument orders |
| StudentDashboard.SoonBeforeExpired | src/pages/Student/StudentDashboard.jsx:107-108 | a soon-to-expire topic goes before an expired one, in both argument orders |
| StudentDashboard.SameClassTies | src/pages/Student/StudentDashboard.jsx:109 | two active topics, or two soon-to-expire topics, are ties |
| StudentDashboard.StudentCompareExpiredPair | src/pages/Student/StudentDashboard.jsx:107 | for two expired topics the comparator returns -1 in both argument orders, so it is not antisymmetric |
| StudentDashboard.StudentCompareOrdersByRank | src/pages/Student/StudentDashboard.jsx:104-109 | on flags the classifier produces, the comparator puts the lower display class first and never the higher one |
| StudentDashboard.ExpiredPairReversed | src/pages/Student/StudentDashboard.jsx:104-109 | under the insertion-sort model two expired topics come out in reverse fetched order |
| StudentDashboard.SortedRows | src/pages/Student/StudentDashboard.jsx:96-110 | the rows are a permutation of the annotated filtered topics, sorted by display class |
| StudentDashboard.ColourOf | src/pages/Student/StudentDashboard.jsx:115-117 | a row is red exactly when expired, green exactly when soon and not expired |
| StudentDashboard.ColourMatchesRank | src/pages/Student/StudentDashboard.jsx:115-117 | red, green and inherit correspond one to one to the expired, soon and active classes |
| StudentDashboard.CreateGate | src/pages/Student/StudentDashboard.jsx:132 | "Create" is offered exactly when `endDate >= today`, the boundary instant included |
| StudentDashboard.CreateOffered | src/pages/Student/StudentDashboard.jsx:132 | definition: "Create" is rendered when the row's expired flag is false; `CreateGate` states the boundary |
| StudentDashboard.Dashboard.constructor | src/pages/Student/StudentDashboard.jsx:10-15 | no topics, not fetched, empty filter, no fetch made |
| StudentDashboard.Dashboard.FetchData | src/pages/Student/StudentDashboard.jsx:18-25 | one fetch for the user's faculty; the result replaces the topics, a failure keeps them |
| StudentDashboard.Dashboard.MountEffect | src/pages/Student/StudentDashboard.jsx:27-32 | fetches only the first time; afterwards nothing changes; the flag ends set |
| StudentDashboard.Dashboard.SetStatusFilter | src/pages/Student/StudentDashboard.jsx:71-82 | the filter takes the chosen value; topics and fetches unchanged |
| StudentDashboard.Dashboard.Rows | src/pages/Student/StudentDashboard.jsx:34-53 | the rows are the filtered topics, annotated, as a multiset (so as many as the filtered topics, each a fetched topic the filter keeps), sorted by display class |
| FmcTopicsTable.TableCompare | src/pages/FMC/topic/TopicsTable.jsx:47-53 | definition: the coordinator table's comparator, rule by rule as written; `TableActiveFirst`, `TableMissingRule`, `TableExpiredPair` and `TableCompareOrdersByRank` state what it does |
| FmcTopicsTable.TableActiveFirst | src/pages/FMC/topic/TopicsTable.jsx:49-50 | an active topic goes before any other, in both argument orders |
| FmcTopicsTable.TableMissingRule | src/pages/FMC/topic/TopicsTable.jsx:47-53 | an expired topic against a soon one is a tie, while the mirrored call returns -1: the comparator is not antisymmetric |
| FmcTopicsTable.TableExpiredPair | src/pages/FMC/topic/TopicsTable.jsx:51 | two expired topics each claim to go first |
| FmcTopicsTable.TableCompareOrdersByRank | src/pages/FMC/topic/TopicsTable.jsx:47-53 | the comparator never puts a higher display class first |
| FmcTopicsTable.Table.constructor | src/pages/FMC/topic/TopicsTable.jsx:8-15 | the table holds the given topics, dialog closed, empty draft, no updates |
| FmcTopicsTable.Table.SortedTopics | src/pages/FMC/topic/TopicsTable.jsx:39-53 | the rows are a permutation of the annotated topics, sorted by display class under the insertion model |
| FmcTopicsTable.Table.HandleOpenDialog | src/pages/FMC/topic/TopicsTable.jsx:17-25 | the topic is remembered, its name and dates are copied into the draft, the dialog opens |
| FmcTopicsTable.Table.HandleCloseDialog | src/pages/FMC/topic/TopicsTable.jsx:27-30 | the dialog closes and the topic is forgotten; the draft stays |
| FmcTopicsTable.Table.HandleUpdate | src/pages/FMC/topic/TopicsTable.jsx:32-37 | without a topic nothing happens; with one, exactly one `onUpdate(id, draft)` and the dialog closes only when that resolves |
| FmcTopicsTable.Table.EditEndDate | src/pages/FMC/topic/TopicsTable.jsx:112 | only the draft's end date changes |
| FmcDashboard.Dashboard.constructor | src/pages/FMC/FMCDashboard.jsx:13-21 | empty lists, not fetched, empty filter, not loading, no calls |
| FmcDashboard.Dashboard.FetchData | src/pages/FMC/FMCDashboard.jsx:24-38 | topics and users requested together; both replaced when both arrive, neither on failure; loading ends false |
| FmcDashboard.Dashboard.MountEffect | src/pages/FMC/FMCDashboard.jsx:40-45 | fetches only the first time: then both lists come from the result or both stay, and loading ends false; later runs change nothing; the flag ends set |
| FmcDashboard.Dashboard.HandleUpdateTopic | src/pages/FMC/FMCDashboard.jsx:76-86 | one update call; exactly one refetch only after a successful update; a failed update leaves the lists; loading ends false |
| FmcDashboard.Dashboard.SetStatusFilter | src/pages/FMC/FMCDashboard.jsx:47-66 | the filter takes the chosen value; nothing else changes |
| FmcDashboard.Dashboard.FilteredTopics | src/pages/FMC/FMCDashboard.jsx:47-66 | a topic is handed to the table exactly when it is fetched and the current filter keeps it |
| TopicDetail.UpdateOffered | src/pages/Student/topics/topicDetail.jsx:103 | definition: "Update" is rendered when the `endDate` route parameter is a valid instant strictly after now; `UpdateGateStricterThanCreate` and `NoEndDateNoUpdate` state its consequences |
| TopicDetail.UpdateGateStricterThanCreate | src/pages/Student/topics/topicDetail.jsx:103 | an offered Update implies the topic is not expired, and the two gates differ exactly when the end instant is now |
| TopicDetail.NoEndDateNoUpdate | src/pages/Student/topics/topicDetail.jsx:103 | with no `endDate` in the route, Update is never offered |
| TopicDetail.Detail.constructor | src/pages/Student/topics/topicDetail.jsx:17-33 | empty list, dialog closed, nothing selected, snackbar closed, no calls |
| TopicDetail.Detail.FetchData | src/pages/Student/topics/topicDetail.jsx:35-46 | one fetch for student, faculty and topic; success replaces the list, failure keeps it and shows the fetch error; loading ends false |
| TopicDetail.Detail.MountEffect | src/pages/Student/topics/topicDetail.jsx:48-53 | fetches only the first time: then the list comes from the result, or it stays and the fetch error shows, and loading ends false; later runs change nothing; the flag ends set |
| TopicDetail.Detail.HandleOpen | src/pages/Student/topics/topicDetail.jsx:55-58 | that contribution is selected and the dialog opens |
| TopicDetail.Detail.HandleClose | src/pages/Student/topics/topicDetail.jsx:60-63 | the dialog closes and the selection is cleared |
| TopicDetail.Detail.HandleUpdate | src/pages/Student/topics/topicDetail.jsx:65-75 | one update call; on success exactly one refetch, the list comes from it, loading ends false, the dialog closes and the success message shows; on failure the error shows and the dialog, selection, list and loading stay |
| TopicDetail.Detail.HandleSnackbarClose | src/pages/Student/topics/topicDetail.jsx:77-79 | the snackbar hides, keeping message and severity |
| ContributionDisplay.MapIcon | src/pages/Student/topics/topicDetail.jsx:81-91 | a listed MIME type gets its entry, every other type the default icon |
| ContributionDisplay.MapIconCases | src/pages/Guest/GuestDashboard.jsx:42-51 | PDF icon exactly for PDF, image icon exactly for JPEG and PNG, Word icon exactly for the two Word types |
| ContributionDisplay.SwitchIcon | src/pages/UMM/faculties/contributions/Contributions.jsx:32-44 | definition: the `switch` variant, with its own case list; `IconVariantsAgreeExceptWord` compares it with the map variant |
| ContributionDisplay.IconVariantsAgreeExceptWord | src/pages/UMM/faculties/contributions/Contributions.jsx:32-44 | the switch variant and the map variant differ exactly on the two Word types and "application/docs" |
| ContributionDisplay.StatusColourCases | src/pages/UMM/faculties/contributions/Contributions.jsx:47-58 | Pending, Approved and Rejected each get their own colour; every other status, absent included, gets secondary text |
| ContributionDisplay.ColourOfStatus | src/pages/UMM/faculties/contributions/Contributions.jsx:47-58 | definition: the status `switch`; `StatusColourCases` states each case |
| GuestDashboard.TruncateFileName | src/pages/Guest/GuestDashboard.jsx:63-65 | names of at most 30 characters are unchanged; longer ones keep their first 30 and end in "..."; never longer than 33 |
| GuestDashboard.TruncateIdempotent | src/pages/Guest/GuestDashboard.jsx:63-65 | shortening a shortened name changes nothing |
| GuestDashboard.ApprovedOnly | src/pages/Guest/GuestDashboard.jsx:67-69 | a contribution is listed exactly when its status is Approved, in fetched order |
| GuestDashboard.Dashboard.constructor | src/pages/Guest/GuestDashboard.jsx:17-21 | no contributions, not loading, not fetched |
| GuestDashboard.Dashboard.FetchData | src/pages/Guest/GuestDashboard.jsx:23-33 | one fetch; the result replaces the list, a failure keeps it; loading ends false |
| GuestDashboard.Dashboard.MountEffect | src/pages/Guest/GuestDashboard.jsx:35-40 | fetches only the first time: then the list comes from the result or stays, and loading ends false; later runs change nothing; the flag ends set |
| ContributionsPage.Page.constructor | src/pages/UMM/faculties/contributions/Contributions.jsx:9-13 | no contributions, not fetched, no fetch made |
| ContributionsPage.Page.FetchData | src/pages/UMM/faculties/contributions/Contributions.jsx:16-23 | one fetch for the route's topic; the result replaces the list, a failure keeps it |
| ContributionsPage.Page.MountEffect | src/pages/UMM/faculties/contributions/Contributions.jsx:25-30 | fetches only the first time: then the list comes from the result or stays; later runs change nothing; the flag ends set |
| CreateSubmission.NewFiles | src/pages/Student/topics/Submission/CreateSubmission.jsx:39-49 | a chosen file is added exactly when no staged file has its name, in selection order |
| CreateSubmission.AllStagedAddsNothing | src/pages/Student/topics/Submission/CreateSubmission.jsx:41-46 | re-choosing only already staged names adds nothing |
| CreateSubmission.SameNameInOneSelectionKept | src/pages/Student/topics/Submission/CreateSubmission.jsx:41-46 | two new files of one selection with the same name are both kept |
| CreateSubmission.FileEntries | src/pages/Student/topics/Submission/CreateSubmission.jsx:60-62 | one `files` entry per staged file, in staging order |
| CreateSubmission.Form.constructor | src/pages/Student/topics/Submission/CreateSubmission.jsx:17-25 | ids from the route and user, blank record, nothing submitted, snackbar closed |
| CreateSubmission.Form.ScalarEntriesOfRecord | src/pages/Student/topics/Submission/CreateSubmission.jsx:55-59 | the key loop appends the six non-file fields in key order and skips `files` |
| CreateSubmission.Form.Payload | src/pages/Student/topics/Submission/CreateSubmission.jsx:53-62 | six text entries in key order, then one entry per staged file |
| CreateSubmission.Form.HandleChange | src/pages/Student/topics/Submission/CreateSubmission.jsx:31-37 | the named field takes `checked` for a checkbox and `value` otherwise; nothing else changes |
| CreateSubmission.Form.HandleFileChange | src/pages/Student/topics/Submission/CreateSubmission.jsx:39-49 | the staged files stay as a prefix, followed by the new names |
| CreateSubmission.Form.BuildPayload | src/pages/Student/topics/Submission/CreateSubmission.jsx:53-62 | the loops build exactly the payload |
| CreateSubmission.Form.ResetForm | src/pages/Student/topics/Submission/CreateSubmission.jsx:78-88 | back to the blank record; the ids stay |
| CreateSubmission.Form.HandleSubmit | src/pages/Student/topics/Submission/CreateSubmission.jsx:51-76 | submitted only with a title, a content and the terms ticked, as the required inputs demand; the payload is sent once and records the terms as accepted; success shows the message and resets, failure shows the error and keeps the form |
| UserForms.NonAdminRoles | src/pages/Admin/user/createUserForm.jsx:163-164 | a role is offered exactly when it was fetched and is not Admin, in fetched order |
| UserForms.FindId | src/pages/Admin/user/updateUserForm.jsx:80-81 | the lookup finds an id exactly when the list has it |
| UserForms.Preselect | src/pages/Admin/user/updateUserForm.jsx:80-81 | the user's own id when the list has it, else `''` |
| UserForms.Ids | src/pages/Admin/user/createUserForm.jsx:163-170 | the `_id` of each role or faculty option, one per entry, at the same positions |
| UserForms.OfferedRoleIsNotAdmin | src/pages/Admin/user/createUserForm.jsx:163-164 | an id chosen from the Role select belongs to a fetched role that is not Admin |
| UserForms.OfferedRoleIsFetched | src/pages/Admin/user/createUserForm.jsx:163-170 | every Role option carries the id of a fetched role |
| UserForms.PreselectRole | src/pages/Admin/user/updateUserForm.jsx:80 | the preselected role is `''` or the user's own role id found in the list, and it is that id whenever the list has it |
| UserForms.PreselectFaculty | src/pages/Admin/user/updateUserForm.jsx:81 | the same rule for the faculty |
| UserForms.StoredAvatar | src/pages/Admin/user/updateUserForm.jsx:64 | the stored avatar is kept exactly when it is a non-empty URL |
| UserForms.UserPayload | src/pages/Admin/user/createUserForm.jsx:59-67 | username, email, role and faculty in that order, then the avatar only when there is one |
| CreateUserForm.Form.constructor | src/pages/Admin/user/createUserForm.jsx:17-28 | empty fields, no avatar, fetching, nothing fetched, no error, no calls |
| CreateUserForm.Form.FetchEffect | src/pages/Admin/user/createUserForm.jsx:30-47 | while nothing is fetched: roles first, faculties only after roles succeed, both lists stored only when both arrive, fetching ends; once fetched nothing happens |
| CreateUserForm.Form.HandleTextChange | src/pages/Admin/user/createUserForm.jsx:138-148 | the edited text field takes the value; the other fields are unchanged |
| CreateUserForm.Form.HandleRoleChange | src/pages/Admin/user/createUserForm.jsx:154-174 | the role is the id of the chosen non-Admin option |
| CreateUserForm.Form.HandleFacultyChange | src/pages/Admin/user/createUserForm.jsx:180-198 | the faculty is the id of the chosen option |
| CreateUserForm.Form.HandleAvatarChange | src/pages/Admin/user/createUserForm.jsx:79-85 | the first chosen file becomes the avatar with its preview; an empty choice changes nothing |
| CreateUserForm.Form.Payload | src/pages/Admin/user/createUserForm.jsx:59-67 | five entries ending with the avatar file |
| CreateUserForm.Form.Complete | src/pages/Admin/user/createUserForm.jsx:53 | definition: the handler's own check, both texts, both selects and an avatar present; `HandleCreate` states that under the browser's required fields it fails exactly when the avatar is missing |
| CreateUserForm.Form.HandleCreate | src/pages/Admin/user/createUserForm.jsx:49-77 | submitted only with username, email, role and faculty filled, as the required inputs demand, so the handler's check fails exactly when the avatar is missing; then only the error shows and nothing is called; otherwise one create call with the payload, and `onCreatedUser` only on success |
| CreateUserForm.Form.ChosenRoleIsNotAdmin | src/pages/Admin/user/createUserForm.jsx:163-164 | the role a valid form sends is a fetched role other than Admin |
| CreateUserForm.Form.HandleErrorClose | src/pages/Admin/user/createUserForm.jsx:210-213 | the error closes; the form values stay |
| UpdateUserForm.Form.WithClose | src/pages/Admin/user/updateUserForm.jsx:55-70 | texts and avatar taken from the user, no role or faculty chosen yet, with an `onClose` callback |
| UpdateUserForm.Form.WithoutClose | src/pages/Admin/userManagement/updateUserForm.jsx:9-24 | the same initial state without an `onClose` callback |
| UpdateUserForm.Form.FetchEffect | src/pages/Admin/user/updateUserForm.jsx:72-91 | while nothing is fetched, both lists are requested together; when both arrive they are stored and the user's role and faculty preselected; once fetched nothing happens (no call, lists and selections unchanged) |
| UpdateUserForm.Form.SyncEffect | src/pages/Admin/user/updateUserForm.jsx:93-100 | a new user prop resets texts and avatar; role and faculty stay |
| UpdateUserForm.Form.HandleTextChange | src/pages/Admin/user/updateUserForm.jsx:145-154 | the edited text field takes the value; the other fields are unchanged |
| UpdateUserForm.Form.HandleRoleChange | src/pages/Admin/user/updateUserForm.jsx:158-164 | the role is the id of the chosen non-Admin option |
| UpdateUserForm.Form.HandleFacultyChange | src/pages/Admin/user/updateUserForm.jsx:165-171 | the faculty is the id of the chosen option |
| UpdateUserForm.Form.HandleAvatarChange | src/pages/Admin/user/updateUserForm.jsx:126-132 | the first chosen file replaces the avatar with its preview; an empty choice changes nothing |
| UpdateUserForm.Form.Payload | src/pages/Admin/user/updateUserForm.jsx:106-113 | four entries, or five with an avatar, with the current role and faculty |
| UpdateUserForm.Form.HandleUpdate | src/pages/Admin/user/updateUserForm.jsx:102-124 | submitted only with username, email, role and faculty filled, as the required inputs demand, so the lists have arrived and the role and faculty sent are fetched ones; one update call for the user's id with the payload; on success `onUserUpdated`, then `onClose` where one was passed |
| UserTable.Rows | src/pages/Admin/user/userTable.jsx:18-41 | one row per user in order; Update and Delete appear exactly on non-Admin rows and pass that row's own user |
| UserTable.ShowsActions | src/pages/Admin/user/userTable.jsx:28 | definition: a row has Update and Delete unless the user's role is named Admin, a user without a role included; `Rows` states where the buttons appear |
| UserManagement.MatchesFilters | src/pages/Admin/UserManagement.jsx:117-120 | definition: the three conditions of the filter callback, conjoined; `FilterUsers`, `EmptyFiltersKeepAll`, `LongerSearchNarrows` and `SearchIgnoresCase` state its effect |
| UserManagement.FilterUsers | src/pages/Admin/UserManagement.jsx:116-121 | a user is listed exactly when the search term is in the lower-cased username and each non-empty select matches, in fetched order |
| UserManagement.EmptyFiltersKeepAll | src/pages/Admin/UserManagement.jsx:116-121 | an empty search with both selects on "all" lists every user |
| UserManagement.LongerSearchNarrows | src/pages/Admin/UserManagement.jsx:117 | typing more characters only removes users from the list |
| UserManagement.SearchIgnoresCase | src/pages/Admin/UserManagement.jsx:62-64 | a typed term and its lower-cased form find the same users |
| UserManagement.Page.constructor | src/pages/Admin/UserManagement.jsx:16-33 | empty lists and filters, loading, not fetched, all dialogs closed, no calls |
| UserManagement.Page.FetchData | src/pages/Admin/UserManagement.jsx:35-54 | three lists requested together, all replaced on success, all kept on failure with the fetch error shown; the spinner goes away |
| UserManagement.Page.MountEffect | src/pages/Admin/UserManagement.jsx:56-60 | fetches only the first time: then all three lists come from the result or all stay, and a failure shows the fetch error; later runs change nothing; afterwards the page counts as fetched and loading is off |
| UserManagement.Page.HandleSearchChange | src/pages/Admin/UserManagement.jsx:62-64 | the stored term is the typed text lower-cased; only that field changes and the invariant holds |
| UserManagement.Page.HandleRoleFilterChange | src/pages/Admin/UserManagement.jsx:66-68 | the role select takes the chosen value; only that field changes and the invariant holds |
| UserManagement.Page.HandleFacultyFilterChange | src/pages/Admin/UserManagement.jsx:70-72 | the faculty select takes the chosen value; only that field changes and the invariant holds |
| UserManagement.Page.Body | src/pages/Admin/UserManagement.jsx:182-192 | a spinner exactly while loading, else one row per filtered user |
| UserManagement.Page.SetCreateUserModalOpen | src/pages/Admin/UserManagement.jsx:139-145 | the create modal opens or closes; no other field may change |
| UserManagement.Page.HandleUserCreated | src/pages/Admin/UserManagement.jsx:74-79 | the modal closes, one refetch; the three lists come from it or all stay; the success message shows unless the refetch failed; loading ends off |
| UserManagement.Page.OpenUpdateUserModal | src/pages/Admin/UserManagement.jsx:104-107 | the user is remembered and the update modal opens |
| UserManagement.Page.ClickUpdate | src/pages/Admin/user/userTable.jsx:31 | the row's Update button opens the modal for that row's own user |
| UserManagement.Page.CloseUpdateUserModal | src/pages/Admin/UserManagement.jsx:161 | the modal closes and the remembered user stays |
| UserManagement.Page.HandleUserUpdated | src/pages/Admin/UserManagement.jsx:109-114 | the modal closes, one refetch; the three lists come from it or all stay; the update message shows unless the refetch failed; loading ends off |
| UserManagement.Page.OpenDeleteConfirmation | src/pages/Admin/UserManagement.jsx:99-102 | the user is remembered and the confirmation opens |
| UserManagement.Page.ClickDelete | src/pages/Admin/user/userTable.jsx:36 | the row's Delete button targets that row's own user, who is not an Admin |
| UserManagement.Page.CancelDelete | src/pages/Admin/UserManagement.jsx:203 | the confirmation closes and the remembered user stays |
| UserManagement.Page.HandleDeleteUser | src/pages/Admin/UserManagement.jsx:81-97 | without a user nothing happens (no call, lists, snackbar, dialog and remembered user unchanged); else one delete call, then one refetch only on success, the snackbar showing the outcome, the dialog closed and the user forgotten |
| UserManagement.Page.HandleSnackbarClose | src/pages/Admin/UserManagement.jsx:123-125 | the snackbar hides, keeping its message |
| FacultiesManagement.FacultyWithId | src/pages/UMM/faculties/FacultiesManagement.jsx:67-78 | finds a listed faculty with that id exactly when there is one |
| FacultiesManagement.Page.constructor | src/pages/UMM/faculties/FacultiesManagement.jsx:8-17 | empty list and name, no dialogs, no error or message, no calls |
| FacultiesManagement.Page.FetchData | src/pages/UMM/faculties/FacultiesManagement.jsx:20-30 | one fetch; the list is replaced, or the fetch error is shown; the page counts as fetched |
| FacultiesManagement.Page.MountEffect | src/pages/UMM/faculties/FacultiesManagement.jsx:32-36 | fetches only while nothing has been fetched: then the list comes from the result, or it stays and the fetch error shows; later runs change nothing |
| FacultiesManagement.Page.SetFacultyName | src/pages/UMM/faculties/FacultiesManagement.jsx:95 | the name field takes the typed value |
| FacultiesManagement.Page.HandleCreateFaculty | src/pages/UMM/faculties/FacultiesManagement.jsx:38-48 | the typed name is sent as is; success names the created faculty, clears the field and refetches once; failure shows the error and keeps the field |
| FacultiesManagement.Page.StartEditing | src/pages/UMM/faculties/FacultiesManagement.jsx:128 | the faculty enters the edit dialog |
| FacultiesManagement.Page.EditFacultyName | src/pages/UMM/faculties/FacultiesManagement.jsx:169 | only the edited faculty's name changes; no other field may change |
| FacultiesManagement.Page.CancelEditing | src/pages/UMM/faculties/FacultiesManagement.jsx:183 | the edit dialog closes |
| FacultiesManagement.Page.HandleUpdateFaculty | src/pages/UMM/faculties/FacultiesManagement.jsx:50-60 | no faculty being edited means the update error and no call; else one update call, then on success the message, the closed dialog and one refetch, and on failure the error with the dialog kept |
| FacultiesManagement.Page.OpenConfirmDeleteDialog | src/pages/UMM/faculties/FacultiesManagement.jsx:80-83 | the id is remembered and the confirmation opens |
| FacultiesManagement.Page.CancelDelete | src/pages/UMM/faculties/FacultiesManagement.jsx:201 | the confirmation closes and the id stays |
| FacultiesManagement.Page.HandleDeleteFaculty | src/pages/UMM/faculties/FacultiesManagement.jsx:67-78 | one delete call with the remembered id; success closes, forgets the id and refetches once; failure shows the error and keeps the dialog |
| FacultiesManagement.Page.SetSelectedFaculty | src/pages/UMM/faculties/FacultiesManagement.jsx:127 | the viewed faculty is set or cleared |
| FacultiesManagement.Page.CloseError | src/pages/UMM/faculties/FacultiesManagement.jsx:102-103 | the error snackbar closes |
| FacultiesManagement.Page.CloseSuccess | src/pages/UMM/faculties/FacultiesManagement.jsx:107-108 | the success snackbar closes |
| FacultiesManagement.Page.DeleteSubject | src/pages/UMM/faculties/FacultiesManagement.jsx:192-203 | the confirmation should name the listed faculty with the remembered id whenever one is listed, and no faculty without a remembered id |
| FacultiesManagement.Page.DeleteSubjectAsWritten | src/pages/UMM/faculties/FacultiesManagement.jsx:196 | definition: the faculty the confirmation names as written, the one last opened with View; `DeleteSubjectMismatch` shows it differs from the faculty being deleted |
| FacultiesManagement.DeleteSubjectMismatch | src/pages/UMM/faculties/FacultiesManagement.jsx:196 | the code as written names nothing (the viewed faculty) while the intended subject is the faculty being deleted |
| Profile.Page.constructor | src/pages/public/Profile.jsx:7-14 | the context token, no user, loading, no error, not editing, no calls |
| Profile.Page.FetchUserData | src/pages/public/Profile.jsx:17-29 | one fetch with the token; the user and both edit fields come from the result, or the error is set; loading ends false |
| Profile.Page.TokenEffect | src/pages/public/Profile.jsx:31-37 | a usable token fetches the user once; otherwise loading just ends |
| Profile.Page.HandleEditClick | src/pages/public/Profile.jsx:39-41 | editing starts; the fields are unchanged |
| Profile.Page.SetEditedUsername | src/pages/public/Profile.jsx:103 | the edited username takes the typed value |
| Profile.Page.HandleAvatarLoaded | src/pages/public/Profile.jsx:60-69 | the read file's data URL becomes the edited avatar |
| Profile.Page.HandleCancelClick | src/pages/public/Profile.jsx:43-47 | editing ends and the user's own username and avatar return to the fields |
| Profile.Page.HandleSaveClick | src/pages/public/Profile.jsx:49-58 | one update call with the edited values; success copies them into the user and ends editing, failure sets the error that replaces the page |
| Profile.Page.View | src/pages/public/Profile.jsx:71-132 | spinner exactly while loading; then the error alert; with no user the notice; a user without a role or a faculty makes the render throw, in both modes; otherwise the details, showing the edited values while editing |
| Json.EscapeTo | src/context/UserContext.jsx:23 | text without quote or backslash is written unchanged |
| Json.ParseStringBody | src/context/UserContext.jsx:11 | reading a string consumes input |
| Json.ParseValue | src/context/UserContext.jsx:11 | reading a value consumes input |
| Json.ParseMembers | src/context/UserContext.jsx:11 | reading object members consumes input |
| Json.Parse | src/context/UserContext.jsx:11 | a parsed text is one value with nothing after it |
| Json.StringBodyRoundTrip | src/context/UserContext.jsx:11-23 | an escaped string body reads back as the same text, leaving what follows |
| Json.ValueRoundTrip | src/context/UserContext.jsx:11-23 | a written value reads back as the same value, leaving what follows |
| Json.MembersRoundTrip | src/context/UserContext.jsx:11-23 | written object members read back as the same members |
| Json.RoundTrip | src/context/UserContext.jsx:11-23 | what `JSON.stringify` writes, `JSON.parse` reads back unchanged |
| Json.Stringify | src/context/UserContext.jsx:23 | definition: `JSON.stringify` on the JSON values the session stores; `RoundTrip` states that parsing reads it back |
| UserContext.SavedSession | src/context/UserContext.jsx:10-18 | a session is restored exactly when the user key parses to a truthy value and the token key is a non-empty string |
| UserContext.RestoreAfterLogin | src/context/UserContext.jsx:10-25 | a reload after `login` restores exactly the user and token passed, when both are truthy |
| UserContext.NothingAfterLogout | src/context/UserContext.jsx:10-32 | a reload after `logout` restores nothing |
| UserContext.LogoutUndoesLogin | src/context/UserContext.jsx:20-32 | login then logout leaves the storage as logout alone; other keys are untouched |
| UserContext.StoredByLogin | src/context/UserContext.jsx:23-24 | definition: the storage after `login` has the written user under `user` and the token under `token`; `RestoreAfterLogin` and `LogoutUndoesLogin` state its properties |
| UserContext.StoredByLogout | src/context/UserContext.jsx:30-31 | definition: the storage after `logout` lacks both keys and keeps every other one; `NothingAfterLogout` and `LogoutUndoesLogin` state its properties |
| UserContext.Provider.constructor | src/context/UserContext.jsx:7-8 | no user, no token |
| UserContext.Provider.RestoreEffect | src/context/UserContext.jsx:10-18 | the saved session is restored when there is one; the storage is only read |
| UserContext.Provider.Login | src/context/UserContext.jsx:20-25 | both states set and both keys written |
| UserContext.Provider.Logout | src/context/UserContext.jsx:27-32 | both states cleared and both keys removed |
| ReportContent.ManagerLabel | src/pages/Admin/userManagement/ReportContent.jsx:22 | never empty; the manager's name when there is one, else "N/A" |
| ReportContent.CardsOf | src/pages/Admin/userManagement/ReportContent.jsx:15-34 | one card per item at the same position, with its manager label |
| ReportContent.ListedItems | src/pages/Admin/userManagement/ReportContent.jsx:14-15 | an item gets a card exactly when its faculty is not "none", in the order given |
| ReportContent.Render | src/pages/Admin/userManagement/ReportContent.jsx:4-45 | spinner exactly while loading; nothing exactly when not loading and the data is not an array; otherwise the listed cards and the export button |

## Left out

- The clock and date parsing are not modelled. Instants are integers; `today`, `threeDaysFromNow` and `now` are parameters, and "three days" is whatever instant the caller passes.
- `new Date(...)` of an invalid or missing date (an `Invalid Date` compares false) is modelled only for the Update gate, where a missing `endDate` is `None`.
- `Array.prototype.sort` is modelled as a stable insertion sort. Engine-specific orders for inconsistent comparators are not modelled.
- The services (axios calls) are outcome parameters. Asynchronous interleavings are not modelled: a handler that does not await its refetch is given its final state, with the handler's own statements first and the refetch settling last.
- `FileReader` and `URL.createObjectURL` results are parameters.
- Session storage is a `map` from keys to strings.
- `GuestDashboard.TruncateFileName`: lengths and the cut count characters (code points), while `name.length` and `name.substring(0, MAX_FILE_NAME_LENGTH)` (with `MAX_FILE_NAME_LENGTH` set to 30) at src/pages/Guest/GuestDashboard.jsx:63-65 count UTF-16 code units. A name of 16 characters outside the Basic Multilingual Plane (32 code units) is shortened by the code but not by the model, and the code can cut a surrogate pair in half.
- `Text.Lower`: only ASCII letters change case, not the full Unicode mapping of `toLowerCase`.
- `Json`: a subset of JSON is modelled, with `null`, booleans, strings and objects. There are no numbers, no arrays and no whitespace, and only the quote and backslash are escaped. The user value `login` stores comes from callers outside this model; that it lies in this subset is assumed, not shown.
- `UserContext.SavedSession`: a stored user that `JSON.parse` rejects throws inside the effect. This is modelled as nothing restored.
- `UserContext.Provider.Login`: the token is taken to be a string, as every caller passes one.
- `UserForms.StoredAvatar`: the avatar preview treats `null` and `''` alike.
- Select changes are modelled by option index, which is how the rendered options constrain the chosen value.
- `CreateSubmission.Form.HandleChange`: only the three inputs wired to it are modelled.
- The React render error for an object child in the delete confirmation (FacultiesManagement.jsx:196) is not modelled. The model records which faculty the text is bound to.
- `FmcTopicsTable.Table.HandleUpdate`: the table is modelled as staying mounted while `onUpdate` runs. In the code the coordinator dashboard sets `loading` at the start of the update (src/pages/FMC/FMCDashboard.jsx:77) and then renders its spinner instead of the table (src/pages/FMC/FMCDashboard.jsx:90-121). The table is therefore unmounted and later mounted afresh, with its dialog closed and its draft empty. The contract's "the dialog closes once `onUpdate` settles" describes a table that stays mounted.
- Browser form validation is not modelled as an event. A submit that the `required` inputs block never reaches the handler. `CreateSubmission.Form.HandleSubmit`, `CreateUserForm.Form.HandleCreate` and `UpdateUserForm.Form.HandleUpdate` therefore require those inputs to be filled. The avatar controls of the user forms hold no required input of their own.
- Object-map lookups that would find inherited `Object.prototype` keys (such as "constructor") are not modelled.
- Navigation (`handleView`, `handleCreateSubmission`, the router) is not modelled.
- Locale date formatting is not modelled.
- Purely presentational files are not part of this model: the faculty detail view, the filter bar and the form utilities.
- Snackbar auto-hide timers are not modelled.

## Findings

| source | as written | input that shows it | evidently intended | confidence | as-written member | corrected member |
|---|---|---|---|---|---|---|
| src/pages/Student/StudentDashboard.jsx:104-109 | rule 3 (`a.isSoonToExpire && b.isExpired`) also fires for two expired topics, because expired implies soon; the comparator returns -1 in both argument orders | two topics both ending before today, fetched as [a, b]: the insertion-sort model outputs [b, a] | expired topics tie and keep fetched order; active, then soon, then expired | not executed | StudentDashboard.StudentCompareExpiredPair | TopicOrdering.DisplayOrder |
| src/pages/FMC/topic/TopicsTable.jsx:47-53 | there is no rule for an expired first argument against a soon-to-expire one, so `compare(expired, soon) == 0` while `compare(soon, expired) == -1` | an expired topic a and a topic b ending tomorrow: `compare(a, b) == 0`, `compare(b, a) == -1` | a consistent comparator: soon before expired in either argument order | not executed | FmcTopicsTable.TableMissingRule | TopicOrdering.RankCompareAntisymmetric |
| src/pages/UMM/faculties/FacultiesManagement.jsx:196 | the delete confirmation shows `selectedFaculty`, the faculty last opened with View, not the one being deleted | open Delete on a listed faculty without having used View: the confirmation names nothing | name the faculty with the remembered `facultyToDelete` id | not executed | FacultiesManagement.DeleteSubjectMismatch | FacultiesManagement.Page.DeleteSubject |
