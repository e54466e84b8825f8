# Jira project assistant — verified model of its core

The Jira project assistant is a panel inside a Jira project. It lists the project's
issues and team members and flags two problems: issues without an assignee, and
Low/Lowest issues due within seven days. It helps fix them with dialogs, and it has a
bulk auto-assign pass that hands the unassigned issues to team members. No member
may hold more than two issues.

The model covers these parts:

- the **capacity-capped round-robin pass** (`static/ui/src/api/autoAssign.ts`), in
  `auto_assign.dfy`. The counting loop, the capacity list, the cyclic
  `getNextAvailableIndex` cursor (over an `array`), the per-issue loop and the
  summary are imperative methods. Each is proved equal to a specification function.
  `auto_assign_props.dfy` and `auto_assign_rotation.dfy` prove what the pass
  guarantees. `auto_assign_examples.dfy` works through three concrete scenarios;
- the **older random passes** of the two single-file clients (`static/ui/src/api.ts`,
  `jira-project-assistant/static/ui/src/api.js`), and the JavaScript client's stateless
  canned replies, in `random_assign.dfy`;
- the **offline mock backend** (`static/ui/src/api/mock.ts` and the copy in
  `static/ui/src/api.ts`), in `mock_backend.dfy`. It is a class whose issue array the
  update and auto-assign cases rewrite in place;
- the **problem classification and load predicates** of the data store
  (`static/ui/src/store/appDataStore.ts`), in `app_data.dfy`;
- the **issue mapping** from a search hit to the panel's issue (`static/ui/src/api/issues.ts`),
  in `issue_mapping.dfy`;
- the **UI flag store** (`static/ui/src/store/appUiStore.ts`) and the **modal dispatch** of
  `static/ui/src/App.tsx`, in `app_ui.dfy` and `app.dfy`;
- the **keyed merge store** of the first-generation panel (`src/stores/useAppStore.ts`),
  in `app_store.dfy`.

Shared records live in `jira.dfy`. The remote assignee PUT is the parameter
`put: (nat, string) -> PutOutcome`: given the issue's position in the pass and the
target account, it says whether the PUT succeeded or what it threw. `Math.random` is a
nondeterministic choice (`:|`). The mock backend's clock is the parameter
`clock: nat -> string`: iteration k of the mock pass stamps `clock(k)` on the issue it
assigns, so each iteration has its own instant; an update stamps `clock(0)`.
Due dates and the data store's "now" are integers in milliseconds; the mock's update
stamps are strings.

Two details of the code that the model keeps:

- The round-robin pass counts an issue toward an account only when the assignee's
  accountId is non-empty (`assignee?.accountId`). The random passes and the data store
  count any present assignee.
- The round-robin pass's "no capacity" error reads "…все достигли лимита 2". The
  exhausted-capacity error inside the loop is a different text. Both are constants of
  the model.

## Model

| member | source | states |
|---|---|---|
| Jira.SuccessCount | static/ui/src/api/autoAssign.ts:150 | the number of successful results never exceeds the number of results |
| Jira.SuccessCountAppend | static/ui/src/api/autoAssign.ts:150 | appending a result raises the success count by one exactly when that result succeeded |
| Jira.Assigned | static/ui/src/api/autoAssign.ts:136-140 | a success record is marked successful, carries the issue's key and names the assignee |
| Jira.Failed | static/ui/src/api/autoAssign.ts:142-146 | a failure record is marked unsuccessful, carries the issue's key and the error |
| AutoAssign.LoadOfAppend | static/ui/src/api/autoAssign.ts:59-66 | visiting one more issue raises exactly the load of the account it counts toward, by one |
| AutoAssign.LoadMapCounts | static/ui/src/api/autoAssign.ts:58-67 | the counter map, defaulting to zero, gives every account's load; an account is a key iff it holds an issue |
| AutoAssign.CountAssigned | static/ui/src/api/autoAssign.ts:58-67 | the counting loop builds the map whose lookups are the reference loads; every key is non-empty with a positive count |
| AutoAssign.EmptyAccountHasNoLoad | static/ui/src/api/autoAssign.ts:61 | an assignee with an empty accountId is never counted |
| AutoAssign.AvailableUsers | static/ui/src/api/autoAssign.ts:70-77 | every entry is an active user with 0 < remaining <= 2 and remaining + current count == 2 |
| AutoAssign.AvailableMembership | static/ui/src/api/autoAssign.ts:70-77 | a user is on the capacity list iff they are on the roster, active and below the cap |
| AutoAssign.AvailableKeepsOrder | static/ui/src/api/autoAssign.ts:70-77 | the capacity list is a subsequence of the roster, so roster order is kept |
| AutoAssign.Scan | static/ui/src/api/autoAssign.ts:99-108 | an index the scan returns is in range and has capacity left |
| AutoAssign.ScanMeaning | static/ui/src/api/autoAssign.ts:99-108 | the scan returns the first entry with capacity at or after the start, cyclically, or nothing when all are exhausted |
| AutoAssign.NextAvailableMeaning | static/ui/src/api/autoAssign.ts:94-109 | the selection is empty iff every entry is exhausted, and then the cursor stays put; otherwise it is the first entry with capacity from the cursor on, cyclically, and the cursor moves to the slot after it |
| AutoAssign.NextAvailableIndex | static/ui/src/api/autoAssign.ts:96-109 | the while loop over the capacity array returns the selection and the new cursor of the specification |
| AutoAssign.Step | static/ui/src/api/autoAssign.ts:111-147 | one iteration appends exactly one result, for this issue's key, keeps earlier results and the users on the list, and moves the cursor as selection says |
| AutoAssign.AssignOne | static/ui/src/api/autoAssign.ts:111-147 | one iteration over the capacity array (select, PUT, decrement on success) yields exactly the cursor, result and new capacities of `Step` |
| AutoAssign.Run | static/ui/src/api/autoAssign.ts:111-148 | the loop adds one result and one pick per issue and never changes who is on the list |
| AutoAssign.AutoAssignUnassigned | static/ui/src/api/autoAssign.ts:7-156 | the method (counting loop, capacity list, cursor over an array, per-issue loop, summary) returns exactly the specified pass |
| AutoAssignProps.StepCapacity | static/ui/src/api/autoAssign.ts:101-147 | an iteration succeeds iff it picked an entry with capacity whose PUT succeeded; then that entry alone loses one unit; a capacity failure or failed PUT changes no entry; the cursor moves whatever the PUT does |
| AutoAssignProps.RunCompose | static/ui/src/api/autoAssign.ts:111-148 | running over two lists one after the other is running over their concatenation |
| AutoAssignProps.RunKeepsPrefix | static/ui/src/api/autoAssign.ts:111-148 | the loop only appends: results and picks already recorded are never changed |
| AutoAssignProps.RunKeys | static/ui/src/api/autoAssign.ts:111-148 | the result for the k-th issue carries that issue's key |
| AutoAssignProps.RunKeyAt | static/ui/src/api/autoAssign.ts:111-148 | for one position k, the result for the k-th issue carries that issue's key |
| AutoAssignProps.RunResults | static/ui/src/api/autoAssign.ts:111-148 | earlier results are never changed, and the k-th new result carries the k-th issue's key |
| AutoAssignProps.RunConsistent | static/ui/src/api/autoAssign.ts:123-140 | every success names the user of the entry it was charged to, and every failure has no pick |
| AutoAssignProps.StepConsistent | static/ui/src/api/autoAssign.ts:123-147 | one iteration keeps every result consistent with its pick: a success names the user of the entry it was charged to |
| AutoAssignProps.CapacityConserved | static/ui/src/api/autoAssign.ts:123-134 | per entry, remaining capacity plus issues given is constant over the loop |
| AutoAssignProps.AssignmentsWithinCap | static/ui/src/api/autoAssign.ts:73-134 | an entry's current load plus what the pass gives it never exceeds 2 |
| AutoAssignProps.AccountWithinCap | static/ui/src/api/autoAssign.ts:58-134 | with distinct accountIds on the roster, an account the pass gives anything to ends with at most 2 issues, its earlier load included |
| AutoAssignProps.AvailableDistinct | static/ui/src/api/autoAssign.ts:70-77 | a roster with distinct accountIds gives a capacity list with distinct accountIds |
| AutoAssignProps.LaterAccount | static/ui/src/api/autoAssign.ts:70-77 | with distinct accountIds, no entry built from the rest of the roster shares the first member's accountId |
| AutoAssignProps.ConsDistinct | static/ui/src/api/autoAssign.ts:70-77 | putting an entry with a new accountId in front of a list with distinct accountIds keeps them distinct |
| AutoAssignProps.GivenByEntry | static/ui/src/api/autoAssign.ts:123-134 | with distinct accountIds, the issues given to an account are those given to its one capacity entry |
| AutoAssignProps.GivenNone | static/ui/src/api/autoAssign.ts:123-134 | an account without a capacity entry is given nothing |
| AutoAssignProps.RemainingNeverGrows | static/ui/src/api/autoAssign.ts:134 | remaining capacity only goes down |
| AutoAssignProps.ExhaustedFailures | static/ui/src/api/autoAssign.ts:113-120 | one capacity-exhausted failure per issue, in order |
| AutoAssignProps.ExhaustedStaysExhausted | static/ui/src/api/autoAssign.ts:112-121 | from an exhausted list, the loop changes no capacity and adds only capacity-exhausted failures |
| AutoAssignProps.FailuresSnoc | static/ui/src/api/autoAssign.ts:113-120 | the failures for one more issue are the earlier failures plus a capacity-exhausted failure with that issue's key |
| AutoAssignProps.RunAfterExhaustion | static/ui/src/api/autoAssign.ts:112-121 | once the list is exhausted, every later issue gets a capacity-exhausted failure |
| AutoAssignProps.ExhaustionIsFinal | static/ui/src/api/autoAssign.ts:112-121 | if selection finds nobody at issue k, every issue from k on gets a capacity-exhausted failure |
| AutoAssignProps.SuccessesUseCapacity | static/ui/src/api/autoAssign.ts:134-150 | successes plus total remaining capacity is constant over the loop |
| AutoAssignProps.NothingToAssign | static/ui/src/api/autoAssign.ts:25-32 | an empty backlog gives success, the message and no results, whatever the roster and project issues are |
| AutoAssignProps.NoCapacityFailsPass | static/ui/src/api/autoAssign.ts:79-84 | the pass fails iff there is work and every active roster member holds 2 or more issues; then it has the error and no results |
| AutoAssignProps.PassReportsLoop | static/ui/src/api/autoAssign.ts:150-156 | with work and capacity the pass reports success, even if every PUT failed, with the loop's results and a summary of their successes out of all issues |
| AutoAssignProps.OneResultPerIssue | static/ui/src/api/autoAssign.ts:111-148 | exactly one result per unassigned issue, in order, with that issue's key |
| AutoAssignProps.SuccessesStayWithinCapacity | static/ui/src/api/autoAssign.ts:70-134 | there are no more successes than the capacity the pass started with, and each success names a user of the capacity list |
| AutoAssignRotation.RotatedCaps | static/ui/src/api/autoAssign.ts:134 | the capacity list after some full rounds plus a partial round has the original length |
| AutoAssignRotation.RotationStep | static/ui/src/api/autoAssign.ts:94-147 | with fresh capacity and accepted PUTs, the k-th iteration gives issue k to entry k mod n and moves the cursor to (k+1) mod n |
| AutoAssignRotation.RotationPrefix | static/ui/src/api/autoAssign.ts:94-148 | with fresh capacity and accepted PUTs, for up to 2n issues result k goes to entry k mod n |
| AutoAssignRotation.IdleTeamCaps | static/ui/src/api/autoAssign.ts:70-77 | an active roster holding nothing becomes a capacity list of the same users, in order, each with remaining 2 |
| AutoAssignRotation.RoundRobinPass | static/ui/src/api/autoAssign.ts:94-156 | an active team holding nothing, with up to twice as many issues as members and every PUT accepted, gets issue k assigned to member k mod n, and all issues succeed |
| AutoAssignRotation.AllAssigned | static/ui/src/api/autoAssign.ts:150 | when every result succeeded the success count is the number of results |
| AutoAssignExamples.LoadMapOfOpen | static/ui/src/api/autoAssign.ts:58-67 | issues without assignees give an empty counter map |
| AutoAssignExamples.RoundRobinOrder | static/ui/src/api/autoAssign.ts:94-156 | any three active users holding nothing, with six unassigned issues whose PUTs all succeed, get the issues in the order a, b, c, a, b, c, and the summary is 6 of 6 |
| AutoAssignExamples.CyclicNames | static/ui/src/api/autoAssign.ts:136-140 | six results that name three users cyclically are the six success records written out in that order |
| AutoAssignExamples.CapacityRunsOut | static/ui/src/api/autoAssign.ts:111-156 | any active user holding nothing, with three unassigned issues whose PUTs all succeed, gets two assignments; the third issue gets a capacity-exhausted failure; the summary is 2 of 3 |
| AutoAssignExamples.CapacityRun | static/ui/src/api/autoAssign.ts:111-147 | that loop ends with the user's capacity at 0, the cursor at 0, and the picks 0, 0, none |
| AutoAssignExamples.RunNext | static/ui/src/api/autoAssign.ts:111 | running over a prefix one issue longer is one more iteration |
| AutoAssignExamples.RunFirst | static/ui/src/api/autoAssign.ts:111 | running over the first issue alone is one iteration from the start state |
| AutoAssignExamples.CountOfTwo | static/ui/src/api/autoAssign.ts:150 | the success count of two results is the number of them that succeeded |
| AutoAssignExamples.CountOfThree | static/ui/src/api/autoAssign.ts:150 | the success count of three results is the number of them that succeeded |
| AutoAssignExamples.PassOfRun | static/ui/src/api/autoAssign.ts:150-156 | with work and a non-empty capacity list, the response is success, carries the loop's results, and summarises their successes out of all issues |
| AutoAssignExamples.RejectedPutStaysLocal | static/ui/src/api/autoAssign.ts:123-147 | two active users holding nothing and two issues: the first PUT succeeds and the second is rejected. The rejected issue records that PUT's error; only the first user loses capacity; the pass succeeds with a summary of 1 of 2 |
| AutoAssignExamples.RejectedPutRun | static/ui/src/api/autoAssign.ts:111-147 | that loop ends with capacities 1 and 2, the cursor back at 0, and picks 0 then none |
| RandomAssign.LiveErrorText | static/ui/src/api.ts:726-732 | an `Error`'s message is recorded as it is; the TypeScript client always records some text |
| RandomAssign.RawLoad | static/ui/src/api.ts:693-695 | an account's load is at most the number of issues |
| RandomAssign.Eligible | static/ui/src/api.ts:690-698 | a user is eligible iff on the roster, active and holding fewer than 2 issues |
| RandomAssign.RandomRun | static/ui/src/api.ts:709-733 | the loop gives one result per issue |
| RandomAssign.RandomAutoAssign | static/ui/src/api.ts:649-741 | the method returns the specified pass for the draws it made, one draw per issue, each drawn from the fixed eligible set |
| RandomAssign.RandomIteration | static/ui/src/api.ts:710-732 | one iteration draws an index into the eligible set and yields exactly the result the specification appends for that draw and that PUT outcome |
| RandomAssign.RandomRunNext | static/ui/src/api.ts:709-733 | one more draw and issue appends exactly one result: a success naming the drawn user if the PUT was accepted, otherwise a failure with the PUT's error |
| RandomAssign.RandomResultAt | jira-project-assistant/static/ui/src/api.js:555-579 | for one position k, the result carries issue k's key, and it succeeds iff the PUT for the user drawn for it succeeded |
| RandomAssign.RandomRunResults | jira-project-assistant/static/ui/src/api.js:555-579 | result k carries issue k's key; it succeeds iff the PUT for the user drawn for it succeeded; a success names that user and a failure records the error |
| RandomAssign.RandomNothingToAssign | jira-project-assistant/static/ui/src/api.js:514-519 | an empty backlog gives success, the message and no results |
| RandomAssign.RandomNoEligibleFails | static/ui/src/api.ts:700-705 | the pass fails iff there is work and every active roster member holds 2 or more issues; then it has the error and no results |
| RandomAssign.RandomPassResults | static/ui/src/api.ts:735-741 | with work and an eligible user the pass succeeds with one result per issue and a summary of its successes, and each success names an eligible user |
| RandomAssign.StatelessMockReply | jira-project-assistant/static/ui/src/api.js:68-311 | the reply succeeds iff the name is one of the six known ones: the issue list with the project key in context (default SCRUM), the five-user roster with user5 inactive, the three projects, the two update messages with nothing stored, and a canned successful pass of two results; any other name gets the unknown-function error |
| RandomAssign.CannedPassConsistent | jira-project-assistant/static/ui/src/api.js:272-280 | the canned pass is one a real pass could report: the summary counts its own successes out of its results, each success names an active roster user, and no user is named twice |
| RandomAssign.RandomPassExceedsCap | static/ui/src/api.ts:690-710 | a user holding one issue can be drawn for three unassigned issues and end with four, over the cap of 2 |
| MockBackend.Shown | static/ui/src/api/mock.ts:231 | a present key is shown as itself |
| MockBackend.FindIndex | static/ui/src/api/mock.ts:217 | the index found is the first with the key; none is found iff no issue has it |
| MockBackend.FindUser | static/ui/src/api/mock.ts:218 | the user found is on the roster with that accountId; none is found iff nobody has it |
| MockBackend.FindIndexOfUniqueKey | static/ui/src/api/mock.ts:217 | with unique keys, looking up an issue's key finds that issue's position |
| MockBackend.PriorityTable | static/ui/src/api/mock.ts:239-251 | ids 1-5 map to Highest..Lowest and back; any other id gets the name Medium |
| MockBackend.AssigneeUpdateEffect | static/ui/src/api/mock.ts:216-228 | a known key and user set only that issue's assignee (to the roster record) and update time; everything else, and the length, is unchanged; a missing or unknown key or user changes nothing |
| MockBackend.PriorityUpdateEffect | static/ui/src/api/mock.ts:236-258 | a known key gets the given id with its table name (Medium for an unknown id) and a new update time; no other issue changes |
| MockBackend.FreeUsers | static/ui/src/api/mock.ts:273-276 | a user is a candidate iff on the roster, active and holding fewer than 2 issues right now |
| MockBackend.UnassignedAt | static/ui/src/api/mock.ts:267 | the snapshot lists, in increasing order, exactly the positions of the issues without an assignee |
| MockBackend.Unassigned | static/ui/src/api/mock.ts:267 | the snapshot has one issue per unassigned position |
| MockBackend.LoadAfterAssign | static/ui/src/api/mock.ts:283-287 | assigning an unassigned issue raises the new assignee's load by one and no other load |
| MockBackend.LegacyPassSkipsUser5 | static/ui/src/api.ts:388-398 | user5 is inactive in the single-file client's roster (line 314), so its mock pass never picks them |
| MockBackend.AssignKeepsProgress | static/ui/src/api/mock.ts:278-295 | an assignment to a free candidate keeps the loop's invariants |
| MockBackend.AssignKeepsShape | static/ui/src/api/mock.ts:283-287 | assigning the current snapshot issue changes only that array slot |
| MockBackend.AssignKeepsLoads | static/ui/src/api/mock.ts:273-287 | assigning to a user below 2 keeps every load that grew at most 2 |
| MockBackend.AssignKeepsResults | static/ui/src/api/mock.ts:289-293 | the new success result names a roster user who now holds the issue |
| MockBackend.FailKeepsProgress | static/ui/src/api/mock.ts:296-302 | when nobody is free, the failure result keeps the loop's invariants and the issue stays unassigned |
| MockBackend.FailKeepsShape | static/ui/src/api/mock.ts:296-302 | recording a failure leaves every issue outside the handled snapshot positions as it was at the start |
| MockBackend.FailKeepsResults | static/ui/src/api/mock.ts:296-302 | the new failure result carries the issue's key and the fixed error, and the issue is left untouched while everybody is busy |
| MockBackend.MockStore.constructor | static/ui/src/api/mock.ts:4-195 | the store starts from the seed issues and the roster |
| MockBackend.MockStore.UpdateIssueAssignee | static/ui/src/api/mock.ts:214-232 | the array is updated as AssigneeUpdated says, and the reply is success with the message, whatever the payload |
| MockBackend.MockStore.UpdateIssuePriority | static/ui/src/api/mock.ts:234-263 | the array is updated as PriorityUpdated says, and the reply is success with the message, whatever the payload |
| MockBackend.MockPassStep | static/ui/src/api/mock.ts:272-302 | one iteration (recount loads, draw any free user, write the issue and record success, or record the fixed failure) adds exactly one result and keeps the pass invariants: unchanged keys, untouched non-snapshot issues, faithful results and capped loads |
| MockBackend.PassOutcome | static/ui/src/api/mock.ts:271-303 | once every snapshot issue is handled, the invariants give the pass's whole promise: per-issue keys, successes to free active users, failures with everybody busy, assigned issues untouched, loads that grew at most 2 |
| MockBackend.MockStore.AutoAssignUnassigned | static/ui/src/api/mock.ts:265-310 | one result per issue of the snapshot taken before the loop, with its key; a success gives that issue to an active roster user with fewer than 2 issues and stamps it with that iteration's own instant `clock(k)`; a failure leaves it unassigned with the fixed error while everybody is busy; already assigned issues are untouched; no load that grew ends above 2; the summary counts the successes out of the snapshot size |
| MockBackend.MockStore.GetMockData | static/ui/src/api/mock.ts:197-344 | each known name gives its reply: reads leave the array alone, the updates apply their function at the call's instant, and the auto-assign case gives the pass's whole promise (results, summary and the rewritten array, as for AutoAssignUnassigned); the reply succeeds iff the name is known; otherwise it carries the unknown-function error |
| AppData.UnassignedCount | static/ui/src/store/appDataStore.ts:135-137 | the count of issues without an assignee is at most the number of issues |
| AppData.ProblemCount | static/ui/src/store/appDataStore.ts:139-148 | the count of problem issues is at most the number of issues |
| AppData.Load | static/ui/src/store/appDataStore.ts:160-162 | an account's load is at most the number of issues |
| AppData.ActiveUsers | static/ui/src/store/appDataStore.ts:150-152 | every listed user is active and below the cap |
| AppData.ActiveUsersCount | static/ui/src/store/appDataStore.ts:154-156 | the count is at most the roster size |
| AppData.CountsOrdered | static/ui/src/store/appDataStore.ts:135-148 | unassigned count <= problem count <= number of issues |
| AppData.CountsZero | static/ui/src/store/appDataStore.ts:135-148 | each count is zero iff no issue has that property |
| AppData.CountsAppend | static/ui/src/store/appDataStore.ts:135-164 | all three counts add up over concatenated issue lists |
| AppData.ProblemCases | static/ui/src/store/appDataStore.ts:141-146 | an issue without a due date, or not Low/Lowest, is a problem iff it is unassigned |
| AppData.ActiveUsersMembership | static/ui/src/store/appDataStore.ts:150-164 | a user is listed iff on the roster, active and holding fewer than 2 issues |
| AppData.ActiveUsersKeepsOrder | static/ui/src/store/appDataStore.ts:150-152 | the list is a subsequence of the roster |
| AppData.LoadAgrees | static/ui/src/store/appDataStore.ts:159-164 | on mapped issues, the store's load equals the round-robin pass's count |
| AppData.ActiveUsersAreAutoAssignCandidates | static/ui/src/store/appDataStore.ts:150-152 | the team tab's available users are exactly the users of the round-robin capacity list, in order |
| IssueMapping.OrDefault | static/ui/src/api/issues.ts:28 | a non-empty value is kept; a missing or empty one gives the default |
| IssueMapping.MapAssignee | static/ui/src/api/issues.ts:30-38 | a missing assignee maps to none; a present one keeps accountId, name and email, takes the 24px avatar and is active |
| IssueMapping.MapPriority | static/ui/src/api/issues.ts:39-42 | a missing priority is Medium/3; name and id each default on their own; neither is ever empty |
| IssueMapping.MapIssue | static/ui/src/api/issues.ts:25-46 | id, key and due date are copied; text fields default to empty; the assignee is present iff it was, and active |
| IssueMapping.MapIssues | static/ui/src/api/issues.ts:25 | the mapping keeps length and order, issue by issue |
| IssueMapping.ToDto | static/ui/src/api/issues.ts:25-27 | the search hit of an issue has its id and key |
| IssueMapping.MapIssueRoundTrip | static/ui/src/api/issues.ts:25-46 | mapping an issue's own search hit gives the issue back iff its priority fields are non-empty and any assignee is active |
| IssueMapping.MapIssueNormalises | static/ui/src/api/issues.ts:25-46 | every mapped issue is canonical, so mapping is stable under a round trip |
| AppUi.Initial | static/ui/src/store/appUiStore.ts:7-14 | the issues tab, no modal and no selected issue |
| AppUi.Reset | static/ui/src/store/appUiStore.ts:33-38 | no modal is open, and the tab and selected issue are kept |
| AppUi.ResetIdempotent | static/ui/src/store/appUiStore.ts:33-38 | resetting twice is resetting once; a reset changes nothing iff no modal was open |
| AppUi.AppUiStore.constructor | static/ui/src/store/appUiStore.ts:7-18 | a new store is in the initial state |
| AppUi.AppUiStore.SetActiveTab | static/ui/src/store/appUiStore.ts:20-22 | only the tab changes |
| AppUi.AppUiStore.SetSelectedIssue | static/ui/src/store/appUiStore.ts:24-26 | only the selected issue changes |
| AppUi.AppUiStore.SetShowAssignModal | static/ui/src/store/appUiStore.ts:28 | only the assign flag changes |
| AppUi.AppUiStore.SetShowPriorityModal | static/ui/src/store/appUiStore.ts:29 | only the priority flag changes |
| AppUi.AppUiStore.SetShowMultiFixModal | static/ui/src/store/appUiStore.ts:30 | only the multi-fix flag changes |
| AppUi.AppUiStore.SetShowAutoAssignConfirm | static/ui/src/store/appUiStore.ts:31 | only the confirmation flag changes |
| AppUi.AppUiStore.ResetModals | static/ui/src/store/appUiStore.ts:33-38 | the state becomes its reset |
| App.Fix | static/ui/src/App.tsx:53-68 | the issue becomes selected; the tab and the confirmation flag are kept |
| App.Close | static/ui/src/App.tsx:70-73 | no modal is open and nothing is selected; the tab is kept |
| App.FixModalMeaning | static/ui/src/App.tsx:54-67 | multi-fix iff unassigned and low with a deadline; assign iff only unassigned; priority iff only low with a deadline; none iff not a problem |
| App.FixOpensOneModal | static/ui/src/App.tsx:59-67 | from a closed state, a problem issue opens exactly one modal |
| App.FixWithoutProblem | static/ui/src/App.tsx:59-67 | an issue without a problem only becomes selected |
| App.CloseUndoesFix | static/ui/src/App.tsx:53-73 | closing after a fix is the same as closing before it |
| App.ChoiceLeavesOneModal | static/ui/src/App.tsx:180-181 | after a multi-fix, either choice closes multi-fix and opens exactly its own modal |
| App.HandleFix | static/ui/src/App.tsx:53-68 | the store's state becomes Fix of the old state |
| App.CloseModals | static/ui/src/App.tsx:70-73 | the store's state becomes Close of the old state |
| App.HandleAssignFromModal | static/ui/src/App.tsx:75-80 | with nothing selected, nothing happens; otherwise it requests the assignment for the selected issue's key and closes the modals |
| App.HandleFixPriorityFromModal | static/ui/src/App.tsx:82-87 | with nothing selected, nothing happens; otherwise it requests the priority (default "3") for the selected issue and closes the modals |
| App.OnChooseAssign | static/ui/src/App.tsx:180 | the multi-fix flag goes off and the assign flag on |
| App.OnChoosePriority | static/ui/src/App.tsx:181 | the multi-fix flag goes off and the priority flag on |
| AppStore.Patched | src/stores/useAppStore.ts:48 | a present field gives the update's value, an absent one keeps the old value |
| AppStore.Merge | src/stores/useAppStore.ts:48 | id and key are kept; each field takes the update's value when present and keeps its own otherwise |
| AppStore.UpdateIssues | src/stores/useAppStore.ts:44-50 | same length and order; issues with another key are unchanged; issues with the key are merged |
| AppStore.Keys | src/stores/useAppStore.ts:46-49 | the key list has one key per issue |
| AppStore.MergeLaws | src/stores/useAppStore.ts:48 | merging nothing is the identity; merging twice is merging the combined update, later fields winning; merging is idempotent |
| AppStore.UpdateKeepsKeys | src/stores/useAppStore.ts:44-52 | an update never changes, adds or moves a key |
| AppStore.UpdateWithoutEffect | src/stores/useAppStore.ts:46-49 | an unknown key or an empty update leaves the list as it was |
| AppStore.UpdateTwice | src/stores/useAppStore.ts:44-52 | two updates of one key are one combined update; repeating an update changes nothing |
| AppStore.UpdatesOfOtherKeysCommute | src/stores/useAppStore.ts:44-52 | updates of different keys commute |
| AppStore.Store.constructor | src/stores/useAppStore.ts:28-34 | the store starts with no project, empty lists, no stats, not loading and no error |
| AppStore.Store.SetCurrentProject | src/stores/useAppStore.ts:37 | only the current project changes |
| AppStore.Store.SetIssues | src/stores/useAppStore.ts:38 | only the issues change |
| AppStore.Store.SetUsers | src/stores/useAppStore.ts:39 | only the users change |
| AppStore.Store.SetStats | src/stores/useAppStore.ts:40 | only the stats change |
| AppStore.Store.SetLoading | src/stores/useAppStore.ts:41 | only the loading flag changes |
| AppStore.Store.SetError | src/stores/useAppStore.ts:42 | only the error changes |
| AppStore.Store.UpdateIssue | src/stores/useAppStore.ts:44-52 | only the issue list changes, to its keyed update, and the keys stay the same |

## Left out

- Network I/O: the searches, the roster request and JQL construction are not modelled. The passes take the three fetched snapshots as inputs. The PUT is the `put` parameter.
- The catch-all fallbacks: on an exception, the TypeScript clients' live pass and live updates fall back to the mock backend's operation (`MockBackend.MockStore`), and the JavaScript client falls back to its stateless canned replies (`RandomAssign.StatelessMockReply`). That hand-off is not modelled. Console logging is not modelled either.
- Project-key discovery (`initializeContext`, `currentProjectKey`): the key is a parameter.
- Date parsing: due dates and "now" are integers, and the seven-day window is 604800000 ms. An unparsable due date, and an empty-string due date (which JavaScript treats as missing), cannot be represented.
- Summary texts: only their two numbers are modelled, as `Summary(succeeded, total)`.
- The seed issue data of the mocks: the mock store starts from any seed with unique keys. The canned issue list of the stateless JavaScript mock is the parameter `cannedIssues`: its records carry due dates as strings and no priority, which the issue record here cannot hold. Its roster, projects and canned auto-assign reply are modelled.
- RandomAssign.LiveErrorText: does not model the JavaScript client's read of `.message` when the thrown value is `null` or `undefined`. That read would itself throw and reach the outer fallback.
- MockBackend.PriorityTable: does not model lookups of inherited object properties such as `toString` in the id-to-name table. Only the five ids and "anything else" are modelled.
- AppStore.Merge: a field that is present but `undefined` in a partial update is not distinguished from an absent one.
- AppStore.Merge: the status is modelled by its name only. The first-generation issue type's status category is not modelled.
- MockBackend.MockStore.AutoAssignUnassigned: the random draw is any choice among the free candidates. No probability distribution is stated.
- RandomAssign.RandomAutoAssign: the draws are any indices into the eligible set. No distribution is stated.
- React rendering, the MobX and zustand wiring, and the async `loadData`/`changeProject`/`autoAssign` actions of the data store.

## Findings

| source | as written | input that shows it | evidently intended | confidence | as-written member | corrected member |
|---|---|---|---|---|---|---|
| static/ui/src/api.ts:690-710 (and jira-project-assistant/static/ui/src/api.js:536-556) | the eligible set is computed once before the loop and never updated, so one user can be drawn for every unassigned issue | one active user holding one issue, three unassigned issues, every PUT accepted, draws 0,0,0: the user ends with four issues | no pass takes a user beyond two issues, as the error text "максимальную загрузку 2/2" and the later round-robin pass's per-user capacity show | not executed | RandomAssign.RandomPassExceedsCap | AutoAssignProps.AccountWithinCap |
