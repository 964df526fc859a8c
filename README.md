# SwachhSnap complaint lifecycle, modelled in Dafny

SwachhSnap is a civic-cleanliness app with three roles:

- A citizen photographs an issue. The report is stored as a complaint, tagged high priority when it lies within 200 m of a sensitive zone.
- An administrator assigns the complaint to a sweeper.
- The sweeper uploads an "after" photo as proof of the clean-up.
- The administrator approves the resolution, and the citizen rates it.

Citizens can also join and leave volunteer clean-up events.

This project models that core:

- the document store and its service operations: create, partial update, the filtered newest-first subscription, event creation and join/leave;
- the priority rule;
- the three dashboards: their lists, counters and action handlers, and the guards under which each screen offers each action.

On top of the model it proves:

- properties of each operation;
- what sequences of user actions can and cannot reach.

Modules, one per file:

- `Types` (types.dfy): the records, `Option`, and partial updates (`Patch`) with their field-wise `Merge`.
- `Participants` (participants.dfy): the participant-list computation of joining and leaving an event.
- `Location` (location.dfy): the priority rule. The distance function is a parameter.
- `Store` (store.dfy): the class `ComplaintStore`, whose two maps of documents its methods update. It also holds the subscription's query choice and a snapshot specification realised by a loop.
- `Filtering` (filtering.dfy): the open/closed status filters.
- `AdminDashboard` (admin.dfy): the list comparator and sort, the counters, and the class `AdminConsole` with assign and approve.
- `SweeperDashboard` (sweeper.dfy): the class `SweeperScreen`, covering the task list, the camera state and the proof upload.
- `CitizenDashboard` (citizen.dfy): the class `CitizenScreen`, covering report submission, rating and event buttons.
- `Lifecycle` (lifecycle.dfy): one complaint driven by sequences of user actions. The screens' guards appear twice, as written (`AsWritten`) and corrected (`Corrected`).

Modelling conventions:

- JavaScript truthiness of an optional string (`c.afterImage && …`, `filters?.userId`, `displayName || "Citizen"`) is `Types.Present`: present and non-empty.
- The store-chosen document id and `Timestamp.now()` are parameters of the create operations. The id is required not to be in use.
- Each external outcome is a parameter:
  - the geolocation fix, `Option<Position>`;
  - the result of an image upload, `Upload`;
  - the great-circle distance, `Location.Distance`.

Two behaviours worth knowing before reading the lifecycle results:

- A sweeper's proof upload writes only `afterImage` and `status` (pages/SweeperDashboard.tsx:54-57). It does not record which sweeper resolved the task; only assignment does (pages/AdminDashboard.tsx:127-131).
- Approval is not checked by the store, which writes any partial update it is given (services/firebaseService.ts:105-108). Whether the after-photo exists is checked only by the screen guards, and only two of the three approve buttons check it.

## Model

| member | source | states |
|---|---|---|
| Types.Merge | services/firebaseService.ts:105-108 | the store's partial update: each field the update names is overwritten and every other field, the id included, is kept; its laws are the four lemmas below |
| Types.MergeEmpty | services/firebaseService.ts:105-108 | a partial update that names no field leaves the complaint unchanged |
| Types.MergeIdempotent | services/firebaseService.ts:105-108 | writing the same partial update twice equals writing it once |
| Types.MergeThen | services/firebaseService.ts:105-108 | two successive partial updates equal one in which the later write wins on every field both name |
| Types.MergeKeepsId | services/firebaseService.ts:105-108 | a partial update never changes the document's id |
| Participants.Distinct | services/firebaseService.ts:201 | the list-to-set-to-list round trip has no duplicates and the same members as its input |
| Participants.DistinctOfNoDuplicates | services/firebaseService.ts:201 | a list without repetitions comes back unchanged from the set round trip |
| Participants.DistinctKeepsFirstOccurrenceOrder | services/firebaseService.ts:201 | the set round trip keeps first occurrences in their original relative order |
| Participants.Join | services/firebaseService.ts:200-201 | after joining, the user is a member, others keep their membership, and there are no duplicates |
| Participants.JoinShape | services/firebaseService.ts:201 | joining yields the de-duplicated old list, followed by the user only if the user was not already in it |
| Participants.JoinExistingMember | services/firebaseService.ts:201 | joining a repetition-free list one already belongs to leaves it unchanged |
| Participants.JoinNewcomer | services/firebaseService.ts:201 | a newcomer joining a repetition-free list is appended at the end, so the length grows by one |
| Participants.JoinTwice | services/firebaseService.ts:201 | joining twice has the same effect as joining once |
| Participants.Leave | services/firebaseService.ts:202 | after leaving, the user is absent and every other id keeps its exact number of occurrences |
| Participants.LeaveNonMember | services/firebaseService.ts:202 | leaving an event one is not in changes nothing |
| Participants.LeaveConcat | services/firebaseService.ts:202 | leaving filters entry by entry, so the remaining ids keep their order |
| Participants.LeaveNoDuplicates | services/firebaseService.ts:202 | leaving keeps a repetition-free list repetition-free |
| Participants.Toggle | services/firebaseService.ts:200-202 | the user is a member afterwards exactly when joining, and every other id is a member exactly when it was before |
| Participants.ToggleNoDuplicates | services/firebaseService.ts:200-202 | a toggle keeps a repetition-free participant list repetition-free |
| Location.AnyZoneWithin | services/locationHelper.ts:81-89 | true exactly when some zone of the list is strictly closer than 200 m |
| Location.CheckPriority | services/locationHelper.ts:60-90 | high exactly when the point is strictly within 200 m of City Hospital (12.9716, 77.5946) or Global School (12.9352, 77.6245) |
| Location.AtOrBeyondRadiusIsNormal | services/locationHelper.ts:88 | a point at 200 m or more from every zone is not high priority |
| Location.ExactlyRadiusIsNormal | services/locationHelper.ts:88 | a distance of exactly 200 m does not count, because the comparison is strict |
| Location.ZoneOrderIrrelevant | services/locationHelper.ts:81 | reordering the zone list does not change the verdict |
| Location.AtZoneIsHigh | services/locationHelper.ts:41-53 | for a distance that is zero between identical points, a report taken at a zone is high priority |
| Location.HospitalReportIsHigh | services/mockFirebase.ts:90-93 | the seeded complaint at the hospital's coordinates is high priority, matching its stored priority |
| Store.Matches | services/firebaseService.ts:129 | the `where` clause of a query: all complaints, those of one reporter, or those assigned to one sweeper (line 137) |
| Store.NewComplaint | services/firebaseService.ts:93-97 | a created complaint carries the chosen id and creation time, and has status submitted whatever the caller supplied |
| Store.NewComplaintKeepsData | services/firebaseService.ts:93-95 | creation stores every caller-supplied field unchanged |
| Store.NewEvent | services/firebaseService.ts:159-162 | a created event carries the chosen id, the creation time and the caller's participant list |
| Store.NewEventKeepsData | services/firebaseService.ts:159-162 | event creation stores the caller's title, date, position, description and participants unchanged |
| Store.ChooseSelection | services/firebaseService.ts:121-140 | a sweeper filter overrides a user filter, a user filter overrides none, and empty ids count as absent |
| Store.ComplaintStore.CreateComplaint | services/firebaseService.ts:90-100 | adds exactly one complaint under the returned id, and events are unchanged |
| Store.ComplaintStore.UpdateComplaint | services/firebaseService.ts:105-108 | merges the update into the named complaint; a missing complaint makes the write fail and change nothing |
| Store.ComplaintStore.CreateEvent | services/firebaseService.ts:156-164 | adds exactly one event under the returned id, and complaints are unchanged |
| Store.ComplaintStore.ToggleEventJoin | services/firebaseService.ts:188-207 | a missing event writes nothing; otherwise only that event's participant list changes, to its toggle |
| Store.ComplaintStore.Query | services/firebaseService.ts:142-147 | the snapshot lists every matching stored complaint exactly once and nothing else, newest first |
| Store.ComplaintStore.Subscribe | services/firebaseService.ts:114-148 | the query follows the filter precedence, and its snapshot satisfies the snapshot specification |
| Filtering.Unfinished | pages/SweeperDashboard.tsx:31 | holds exactly the listed complaints that are not done, never more of them |
| Filtering.Finished | pages/AdminDashboard.tsx:54 | holds exactly the listed complaints that are done, never more of them |
| Filtering.OpenAndClosedPartition | pages/AdminDashboard.tsx:51-55 | the open and done counts add up to the total |
| Filtering.UnfinishedKeepsMultiplicity | pages/SweeperDashboard.tsx:31 | the filter keeps each open complaint as many times as the snapshot lists it |
| Filtering.UnfinishedConcat | pages/SweeperDashboard.tsx:31 | the filter works entry by entry, so open complaints keep their snapshot order |
| AdminDashboard.Compare | pages/AdminDashboard.tsx:44-48 | negative exactly when `a` is high priority and `b` is not, or both are in the same tier and `a` is newer; positive in the mirrored cases |
| AdminDashboard.Precedes | pages/AdminDashboard.tsx:44-48 | `a` may be listed before `b` exactly when `b` is not high priority unless `a` is, and within a tier `a` is not older |
| AdminDashboard.CompareAntisymmetric | pages/AdminDashboard.tsx:44-48 | swapping the two complaints flips the comparator's sign |
| AdminDashboard.PrecedesTotalPreorder | pages/AdminDashboard.tsx:44-48 | the comparator is total and transitive, so the sort is well defined |
| AdminDashboard.AdminOrder | pages/AdminDashboard.tsx:44-48 | the admin list is a permutation of the snapshot, ordered by the comparator |
| AdminDashboard.AdminOrderTiers | pages/AdminDashboard.tsx:45-47 | every high-priority complaint precedes every other one; within a tier newer complaints come first |
| AdminDashboard.StatsOf | pages/AdminDashboard.tsx:51-55 | total is the snapshot size; pending and completed count the open and done complaints and add up to the total |
| AdminDashboard.FindSweeper | pages/AdminDashboard.tsx:124 | none exactly when no sweeper has the uid, otherwise the first sweeper that does |
| AdminDashboard.AssignOffered | pages/AdminDashboard.tsx:289 | the assign drop-down is shown only for a submitted complaint |
| AdminDashboard.ApproveOfferedWithPhoto | pages/AdminDashboard.tsx:278 | the approve buttons of the actions cell and of the details dialog (lines 391-392) are shown for a complaint under review that has a non-empty after-photo |
| AdminDashboard.ApproveOfferedBesideAssign | pages/AdminDashboard.tsx:307 | the approve button beside the drop-down is shown for every complaint under review, with no photo check |
| AdminDashboard.ApproveGuardsDiffer | pages/AdminDashboard.tsx:278-314 | the button at line 307 is offered wherever the photo-checking ones are, and in addition exactly on complaints under review without an after-photo; assign and approve are never offered together |
| AdminDashboard.AssignPatch | pages/AdminDashboard.tsx:127-131 | the update assignment writes: status review and the sweeper's uid and name; its effect is stated by Lifecycle.PatchesWriteExactly |
| AdminDashboard.ApprovePatch | pages/AdminDashboard.tsx:135 | the update approval writes: status done only |
| AdminDashboard.AdminConsole.constructor | pages/AdminDashboard.tsx:21-25 | the console starts with an empty list, zero counters and no selected complaint, with the given sweeper list |
| AdminDashboard.AdminConsole.OnSnapshot | pages/AdminDashboard.tsx:43-56 | the list becomes the sorted snapshot and the counters its statistics |
| AdminDashboard.AdminConsole.AssignTask | pages/AdminDashboard.tsx:123-132 | an unknown sweeper writes nothing; otherwise status becomes review and the sweeper's uid and name are recorded |
| AdminDashboard.AdminConsole.ApproveResolution | pages/AdminDashboard.tsx:134-137 | only the status becomes done, whatever the after-photo; the dialog closes only after a successful write |
| SweeperDashboard.AfterPhotoPatch | pages/SweeperDashboard.tsx:54-57 | the update a successful proof upload writes: the photo URL and status review, and nothing else |
| SweeperDashboard.TaskFilters | pages/SweeperDashboard.tsx:33 | the sweeper's subscription filters on the assigned sweeper only |
| SweeperDashboard.TaskListIsOpenAssignments | pages/SweeperDashboard.tsx:29-34 | the task list holds exactly the sweeper's assigned complaints that are not done, each once |
| SweeperDashboard.OpenTasksOnce | pages/SweeperDashboard.tsx:31 | filtering a snapshot lists each complaint at most once |
| SweeperDashboard.UploadOffered | pages/SweeperDashboard.tsx:138 | a task's upload button is shown unless the task is under review |
| SweeperDashboard.CountOfRepetitionFree | pages/SweeperDashboard.tsx:80 | a task list holding each record at most once is as long as its set of records, so the header count is the number of distinct open tasks |
| SweeperDashboard.SweeperScreen.constructor | pages/SweeperDashboard.tsx:10-13 | the screen starts with no tasks, no active task, the camera closed and not loading |
| SweeperDashboard.SweeperScreen.OnSnapshot | pages/SweeperDashboard.tsx:30-32 | the task list becomes the snapshot's open complaints |
| SweeperDashboard.SweeperScreen.Refresh | pages/SweeperDashboard.tsx:26-37 | after a snapshot, the task list holds exactly the sweeper's open assignments, each once, and its length (the header count) is the number of them; with an empty uid the filter drops and every open complaint is listed |
| SweeperDashboard.SweeperScreen.HandleComplete | pages/SweeperDashboard.tsx:39-42 | the pressed task becomes active and the camera opens |
| SweeperDashboard.SweeperScreen.Cancel | pages/SweeperDashboard.tsx:166-169 | the camera closes and no task stays active |
| SweeperDashboard.SweeperScreen.SubmitAfterPhoto | pages/SweeperDashboard.tsx:44-68 | with no active task, or an empty task id, nothing happens; otherwise the after-photo and review status are written only after a successful upload, the camera and active task clear only on success, and loading ends false |
| CitizenDashboard.ReportData | pages/CitizenDashboard.tsx:84-99 | the report carries the user, the photo, the position and the form fields; the name falls back to "Citizen"; every workflow field is null; priority is high exactly when the position is near a zone |
| CitizenDashboard.FeedbackPatch | pages/CitizenDashboard.tsx:119-121 | the update a rating writes: the feedback field only |
| CitizenDashboard.FeedbackOffered | pages/CitizenDashboard.tsx:280-286 | the rating buttons are shown for a done complaint with a non-empty after-photo and no rating yet |
| CitizenDashboard.Joined | pages/CitizenDashboard.tsx:202-205 | the event button shows "joined" when the signed-in uid, or the empty string without a user, is in the participant list |
| CitizenDashboard.CitizenScreen.constructor | pages/CitizenDashboard.tsx:23-29 | the screen starts with the camera closed, not loading, category garbage and an empty description |
| CitizenDashboard.CitizenScreen.NewReport | pages/CitizenDashboard.tsx:64-71 | the camera opens only when the location check obtained a fix; otherwise it stays as it was |
| CitizenDashboard.CitizenScreen.SubmitReport | pages/CitizenDashboard.tsx:73-110 | without a user nothing happens; otherwise a complaint is created only if both the fix and the upload succeed, which also closes the camera and clears the description; loading ends false |
| CitizenDashboard.CitizenScreen.CloseCamera | pages/CitizenDashboard.tsx:308 | dismissing the camera closes it |
| CitizenDashboard.CitizenScreen.HandleFeedback | pages/CitizenDashboard.tsx:115-122 | only the rating field of the complaint is written |
| CitizenDashboard.CitizenScreen.ToggleJoinEvent | pages/CitizenDashboard.tsx:124-134 | without a user nothing happens; otherwise the event's participant list becomes its toggle for the user's uid |
| CitizenDashboard.CitizenScreen.PressEventButton | pages/CitizenDashboard.tsx:202-218 | a press writes exactly the toggle of the user's membership in the pressed event, with the opposite of what the shown snapshot says, and changes nothing else (nothing at all without a user or for a missing event); with a current snapshot one press flips the user's own membership and nobody else's |
| Lifecycle.UploadOfferedTo | pages/SweeperDashboard.tsx:31-33 | a sweeper is offered the upload for a complaint in their task list (assigned to them and not done) whose button shows: as written, not under review (line 138); corrected, while it has no after-photo |
| Lifecycle.Offered | pages/AdminDashboard.tsx:278-314 | an action is available when the complaint satisfies the guard of its control: assign, the approve buttons, the sweeper's upload (pages/SweeperDashboard.tsx:138) and the rating buttons (pages/CitizenDashboard.tsx:280-286), as written or corrected; who acts is over-approximated (any user may be assigned, anyone may rate), which keeps the safety lemmas sound |
| Lifecycle.Step | pages/AdminDashboard.tsx:123-137 | an offered action merges its handler's partial update into the complaint; an action not offered leaves it unchanged |
| Lifecycle.PatchesWriteExactly | pages/AdminDashboard.tsx:127-135 | the assign, approve, proof and rating updates write exactly the fields their handlers name |
| Lifecycle.StepKeepsReport | types.ts:16-32 | an action never moves the status backwards, and never changes the reporter, photo, place, category, priority or creation time |
| Lifecycle.RunKeepsReport | types.ts:16-32 | the same holds for every sequence of actions |
| Lifecycle.DoneIsFinal | pages/AdminDashboard.tsx:289-314 | a done complaint stays done |
| Lifecycle.FeedbackSetOnce | pages/CitizenDashboard.tsx:280-296 | a stored rating is never overwritten, because the rating buttons appear only while there is none |
| Lifecycle.StepConsistent | pages/AdminDashboard.tsx:278-314 | every offered action keeps the field invariants: an after-photo only after submission, a rating only when done, a sweeper only after submission |
| Lifecycle.RunConsistent | pages/AdminDashboard.tsx:278-314 | every sequence of actions keeps those invariants |
| Lifecycle.NewReportIsFresh | pages/CitizenDashboard.tsx:84-99 | a new citizen report starts submitted with every workflow field null, and stays consistent under any actions |
| Lifecycle.AsWrittenRun | pages/SweeperDashboard.tsx:138-154 | as written, the reachable records have no after-photo and no rating; without the unguarded button nothing becomes done |
| Lifecycle.AssignHidesUpload | pages/SweeperDashboard.tsx:138-154 | as written, assigning a submitted complaint hides its upload button from every sweeper, the assigned one included |
| Lifecycle.AsWrittenNeverGetsPhoto | pages/SweeperDashboard.tsx:138-154 | as written, no sequence of actions ever gives a complaint an after-photo or a rating |
| Lifecycle.AsWrittenGuardedApprovalNeverCloses | pages/AdminDashboard.tsx:278-285 | as written, with only the photo-checking approve buttons, a complaint never becomes done |
| Lifecycle.UnguardedApprovalClosesWithoutPhoto | pages/AdminDashboard.tsx:307-314 | as written, assigning then pressing the approve button beside the drop-down closes a complaint with no after-photo |
| Lifecycle.SeededHospitalComplaintClosesWithoutPhoto | services/mockFirebase.ts:82-98 | the seeded hospital complaint, assigned to the seeded sweeper and approved that way, is done with no photo |
| Lifecycle.CorrectedRun | pages/AdminDashboard.tsx:391-399 | with the corrected guards, every sequence keeps the invariants and "done implies an after-photo" |
| Lifecycle.CorrectedDoneHasPhoto | pages/AdminDashboard.tsx:391-399 | with the corrected guards, no sequence of actions closes a new complaint without an after-photo |
| Lifecycle.CorrectedApprovalNeedsPhoto | pages/AdminDashboard.tsx:278 | with the corrected guards, approving a complaint without an after-photo is refused and leaves it unchanged |
| Lifecycle.CorrectedHappyPath | pages/SweeperDashboard.tsx:138-154 | with the corrected guards, assign, proof upload, approve and rate complete the lifecycle with the photo, sweeper and rating recorded |

## Left out

- The Haversine formula (services/locationHelper.ts:33-54) is floating point. The distance is a parameter of the priority rule. Its only assumed property is that identical points are at distance zero.
- Geolocation (`getCurrentPosition`) is device I/O. Its outcome is the `Option<Position>` parameter of report submission. The location pre-check in `handleNewReport` is modelled by `CitizenDashboard.CitizenScreen.NewReport`, with its fix as a parameter.
- The camera, image capture and the uploads (`uploadImage`, `uploadToCloudinary`) are device and network I/O. Each upload is its outcome, the `Upload` parameter.
- The realtime listeners and their unsubscribe are not modelled. A subscription is modelled by one snapshot (`Store.ComplaintStore.Subscribe`), taken against the current store.
- Concurrent clients and last-write-wins interleavings are not modelled. Each handler runs atomically against the store.
- Store.ComplaintStore.CreateComplaint: a failing write is not modelled; creation always succeeds.
- Store.ComplaintStore.UpdateComplaint: every failure is modelled as a missing document. Network failures are not distinguished.
- Store.ComplaintStore.Query: the order of complaints created at the same instant is left unspecified, as it depends on the store.
- `Timestamp` values are modelled as integers supplied by the caller.
- `Types.Patch` has no `id` field: no caller writes `id`. The store's update would accept one, and a written `id` would shadow the document id in snapshots (services/firebaseService.ts:144); that case is not modelled.
- Events are modelled as always carrying a participant list. The `|| []` fallback for a missing list (services/firebaseService.ts:198) therefore has no counterpart.
- `subscribeToEvents` (services/firebaseService.ts:169-183) is not modelled. Its date ordering feeds only the display.
- The user-account service calls (`saveUser`, `getUser`, `getAllSweepers`) are not modelled. The admin's sweeper list is a constructor parameter of `AdminDashboard.AdminConsole`.
- Login, registration, routing and layout are not modelled. The signed-in user is a constant of each screen.
- The admin map view, marker colours and `toNumber` are presentation only.
- Alerts and console logging are not modelled.
- AdminDashboard.AdminOrder: stability is not proved. The model's insertion sort places a record before those it ties with, which keeps ties in snapshot order as the stable `Array.prototype.sort` does, but only ordering and permutation are stated.
- SweeperDashboard.SweeperScreen.SubmitAfterPhoto: the upload button's `disabled={loading}` is not modelled, because each handler runs atomically.
- Lifecycle.UploadOfferedTo: a signed-in uid is taken to be non-empty. An empty uid would drop the sweeper filter (services/firebaseService.ts:134) and show every open complaint, submitted ones included; that case is not modelled in the lifecycle.
- Lifecycle.Step: a press and the capture that follows are treated as one action. An upload is an action only when it succeeded.

## Findings

| source | as written | input that shows it | evidently intended | confidence | as-written member | corrected member |
|---|---|---|---|---|---|---|
| pages/AdminDashboard.tsx:307 | the approve button beside the assign drop-down is shown for every complaint under review, with no after-photo check, and the handler writes `done` unconditionally | a fresh complaint, assigned to a sweeper, then approved with that button: it ends `done` with `afterImage` null | approval only when the after-photo is present, as the other two approve buttons (lines 278 and 391) require | not executed | Lifecycle.UnguardedApprovalClosesWithoutPhoto | Lifecycle.CorrectedDoneHasPhoto |
| pages/SweeperDashboard.tsx:138 | the upload button is hidden whenever status is `review`, but assignment always sets `review`, so an assigned task never offers the upload | any fresh complaint and any sequence of actions: the after-photo stays null, and the rating buttons, which need a done complaint with a photo, never appear | offer the upload while the assigned task has no after-photo yet | not executed | Lifecycle.AsWrittenNeverGetsPhoto | Lifecycle.CorrectedHappyPath |
