# Verification model of the browser test control service

The service runs browser tests and records new ones. Its state is a set of database rows whose JSON bodies
are changed by many concurrent requests and background tasks; a row lock is held only inside one critical
section and never while a controller or a browser is asked for something. This project states what those
protocols keep over every interleaving, and what the few pure transformations around them compute.

| area | files |
|---|---|
| Lifecycles, the whole-body merge, row locks | `Domain.dfy`, `Store.dfy`, `RowLocks.dfy` (`Collections.dfy` holds facts about sets and sequences) |
| Recordings | `Recordings.dfy` (locked sections), `RecordingProtocol.dfy` (interleavings and their invariant), `RecordingEffects.dfy` (what each step brings about, and where the code of a row comes from), `RecordingGuarantees.dfy` (promises) |
| Versions of a scenario | `ScenarioVersions.dfy` |
| Runs, scheduler, startup recovery | `Runs.dfy`, `RunProtocol.dfy`, `RunEffects.dfy`, `RunGuarantees.dfy`, `Recovery.dfy` |
| Organizations, members, invitations | `Tenants.dfy`, `TenantEffects.dfy`, `TenantGuarantees.dfy` |
| Sign-in throttle | `Throttle.dfy` |
| Rebinding of recorded code | `Urls.dfy`, `Bindings.dfy`, `Rebind.dfy`, `Splice.dfy`, `Navigation.dfy`, `RebindGuarantees.dfy` |
| Runner output and verdict | `Framing.dfy`, `Verdict.dfy` |

How to read it. Code that changes a row in place is a method on a mutable object (`Store.Resource`,
`Tenants.TenantStore`, `ScenarioVersions.ScenarioStore`, `Throttle.AuthAttempts`, `Rebind.Binder`,
`Verdict.Reporter`, `Framing.StdoutReader`), proved against a function of the old state. A concurrent protocol
is a state machine whose steps are those functions: `Step` takes one action of one task or request, `Exec` a
whole run, and an action that is not possible in a state changes nothing, so a theorem about all action
sequences is a theorem about all interleavings. Requests keep their stale local copies in the state.

Assumptions, each visible in the contracts:

- `Runs.ValidConfig`: redaction leaves a status word alone or turns it into text that is no status word
  (app/security.py:45-59), and there is at least one run slot (app/config.py:25). Where a stronger assumption
  matters, `RunGuarantees.RunningBound` says exactly which one.
- The controller, the sealed environments, redaction of other text, the JSON parser, the JavaScript parser and
  the parser of absolute URLs are parameters. A parsed URL is a record; two URLs have the same `href` when
  their records are equal. `Urls.ValidParser` states what section 4.4 of the WHATWG URL Standard (URL parsing)
  guarantees of every record that parsing returns; `Navigation.ExcerptIsValid` shows that it can be met.
- Websites of an environment are http or https URLs with distinct names (app/schemas.py:140-155).
- Clock readings of sign-in attempts do not decrease in commit order.
- "Commit, then track the task" (app/services/recordings.py:160-161 and 78-93) is one step.

Findings, where the code promises less, or more, than one would expect:

- `RunGuarantees.RunningBound`: the rows in `running` stay within `max_concurrent_runs` if and only if no
  environment holds a secret that occurs inside the word `error`; otherwise a failure report is refused by the
  transition check and its row stays in `running` (app/jobs.py:136-163). `RunGuarantees.RefusedForStatusWords`:
  no finish is ever refused if and only if no secret occurs inside any terminal status word.
- `TenantGuarantees.NoPendingInvitationForMembers`, `AcceptNeverFindsAMember`: both hold if and only if the
  database's `lower` and Python's `casefold` agree on every registered address
  (app/services/tenants.py:231-238, 302).
- `Navigation.RebindingKeepsNavigation`: a rebound navigation leads elsewhere for a target with other userinfo,
  a path that starts with two slashes, an empty query or fragment marker, or a `blob:` target
  (src/runtime/recorder.ts:44). `Navigation.EmptyQueryIsLost` shows it for `https://shop.test/?`.
- `RecordingProtocol.StartRowOk`: the branch of a start that finds the row no longer starting and stops the
  controller again cannot be taken (app/services/recordings.py:53-55).
- `RecordingGuarantees.PollsRaiseForEmptyMessages`: a failure of a poll whose redacted message is empty is taken
  for a success, and the request raises if there was no reading; this never happens, over all runs, if and only
  if no message is empty once redacted, and `EmptyMessageRaises` gives the run for any that is
  (app/services/recordings.py:178-185).
- `Verdict.ExitZeroMeansGreen`: exit code 0 also needs redaction to leave the words `passed` and `verified` alone.
- docs/recorder.md:58 says that the first website of the same origin is used; the code moves the website the
  recording started from to the front first (src/runtime/recorder.ts:28), and the model follows the code.
- `Throttle.ThrottleBound`: the bound is one attempt sharper than two full windows, and attained.

## Model

| member | source | states |
|---|---|---|
| `Domain.TerminalRunsAbsorb` | app/domain.py:69-89 | along every path the transition check accepts, a run that reached a terminal status keeps that very status |
| `Domain.ActiveNeverReentered` | app/domain.py:77-89 | a recording that left the active statuses never returns to one along an accepted path |
| `Domain.MovesAreExactly` | app/domain.py:72-89 | the persisted moves of runs and of recordings, status by status |
| `Domain.OutcomesAreEarned` | app/domain.py:72-89 | along every accepted path a run that passed, failed or timed out has been running, and a recording that stopped has been stopping |
| `Store.Resource.Update` | app/store.py:80-95 | a refused update (version row, illegal transition) leaves the row as it was; an accepted one merges the changes over every other key and stamps the time |
| `Store.MergeWritesTheChanges` | app/store.py:94 | the changes win, every other key stays, and the time is stamped |
| `Store.StatusesFollowTheTable` | app/store.py:81-89 | versions are never updated; an update of a run or recording is accepted if and only if its status may follow; other kinds are never refused |
| `RowLocks.NoLostUpdate` | app/store.py:80-95 | for any number of sessions and any interleaving on one row: if each change is preceded in its transaction by a locking re-read, the committed body is the fold of all committed changes, each merged into the body committed before it |
| `RowLocks.NoChangeVanishes` | app/store.py:80-95 | for any interleaving, once all sessions are through, the committed log holds every change of every script as often as the scripts do |
| `RowLocks.StepKeepsInv` | app/store.py:43-47 | one statement of one session keeps it: at most one holder, whose copy is the committed body plus its own pending changes |
| `RowLocks.ServiceScriptsAreDisciplined` | app/services/recordings.py:166-186 | the statement sequences of polls, stops, saves, settles, publishes, cancels and patches all re-read under lock before they change |
| `RowLocks.ServiceScriptsAreThorough` | app/services/recordings.py:166-186 | those sequences commit what they change, roll nothing back and re-read over no change |
| `RowLocks.WithoutSecondLockThePatchIsLost` | app/routes/recordings.py:96-98 | without the second scenario lock of a save there is an interleaving after which every key only the concurrent patch wrote is back at its old value and the body is no fold of the commits |
| `Recordings.StartWrites` | app/services/recordings.py:42-63 | a successful start makes a starting row ready under its viewer address, a failed one closes a starting or ready row with the redacted message, any other row stays |
| `Recordings.StopWrites` | app/services/recordings.py:73-78 | a ready row becomes stopping without viewer, any other stays |
| `Recordings.FlushWrites` | app/services/recordings.py:80-91 | a stopping row becomes stopped with the redacted code and checks, or is in error with exactly the redacted message, without viewer |
| `Recordings.PollWrites` | app/services/recordings.py:171-186 | a ready row stays ready with the redacted code and checks of the reading, or is in error with exactly the redacted message if that is not empty; any other row stays |
| `Recordings.SettleStart` | app/services/recordings.py:42-63 | the tail of a start on the locked row: ready, undo or error, exactly by the row's status; a refused update changes nothing |
| `Recordings.FinishUnderLock` | app/services/recordings.py:73-78 | only a ready row moves to stopping, and a flush is spawned exactly then |
| `Recordings.PublishFlush` | app/services/recordings.py:80-91 | the redacted answer with stopped, or the redacted failure with error |
| `Recordings.PublishPoll` | app/services/recordings.py:171-186 | a poll writes only to a row that is still ready; an empty failure message counts as no failure; the request itself raises if and only if the row is ready, there is no reading and the redacted message is empty |
| `RecordingProtocol.StartRowOk` | app/services/recordings.py:42-63 | in every row the invariant allows, a start that returns finds the row still starting: its update is accepted and the undo branch is dead |
| `RecordingProtocol.FlushRowOk` | app/services/recordings.py:80-91 | publishing a flush is never refused, and a stopped row carries the flush's redacted answer |
| `RecordingProtocol.StopRowOk` | app/services/recordings.py:73-78 | a stop of a ready row is never refused and spawns the only flush of the recording |
| `RecordingProtocol.PollRowOk` | app/services/recordings.py:180-186 | a poll's update of a ready row is never refused |
| `RecordingProtocol.InsertKeepsInv` | app/services/recordings.py:130-160 | inserting after a count that may be out of date keeps every user within the limit, because rows can only have left the active statuses since |
| `RecordingProtocol.RestartKeepsInv` | app/jobs.py:61-83 | a process restart with recovery, at any point and whether or not the clean-up fails, keeps the invariant |
| `RecordingProtocol.StepKeepsInv` | app/services/recordings.py:21-187 | every step of every starter, flush, stop, save, sweeper pass, poll and creation keeps the invariant |
| `RecordingEffects.UserLocksAreExclusive` | app/services/recordings.py:131 | a request gets the user's row if and only if no other creation of that user holds it |
| `RecordingEffects.CountsActiveRows` | app/services/recordings.py:132-141 | the count is that of the user's rows in starting, ready or stopping |
| `RecordingEffects.CreatesBelowTheLimit` | app/services/recordings.py:142-161 | a recording is created if and only if the count is below the limit: starting, without viewer and code, its start under way |
| `RecordingEffects.AnswersArrive` | app/services/recordings.py:30-41 | the controller's answers reach exactly the task or request that waits for them |
| `RecordingEffects.StartsSettle` | app/services/recordings.py:42-63 | in every reachable state a start that was answered settles: ready with the viewer address, or in error |
| `RecordingEffects.StopsBegin` | app/services/recordings.py:66-78 | in every reachable state a stop waits while the row starts, moves a ready row to stopping and spawns its flush, and returns any other row as it is |
| `RecordingEffects.StopsResume` | app/services/recordings.py:68-78 | a stop that waited goes on if and only if the start has settled |
| `RecordingEffects.FlushesPublish` | app/services/recordings.py:80-91 | in every reachable state a flush that was answered publishes: stopped with the redacted answer, or in error |
| `RecordingEffects.StopsReturn` | app/services/recordings.py:93-95 | a stop that spawned or met a flush returns the published row, and not before |
| `RecordingEffects.SavesWhatStopped` | app/routes/recordings.py:88-95 | a save goes on if and only if its row stopped with some code, and then with exactly that code and those checks |
| `RecordingEffects.PollsReadyRows` | app/services/recordings.py:166-173 | a poll asks the controller if and only if it reads a ready row |
| `RecordingEffects.PollsPublish` | app/services/recordings.py:171-186 | in every reachable state a poll publishes its redacted reading to a row that is still ready, or closes it with the redacted message, and touches no other row |
| `RecordingEffects.RestartsEndEverything` | app/jobs.py:41-83 | after a restart no user has an active recording, and exactly the rows in starting, ready or stopping have changed |
| `RecordingEffects.CodeHasASource` | app/services/recordings.py:80-91 | over every run a row shows nothing, or the redacted form of an output its own flush or one of its own polls brought |
| `RecordingGuarantees.RecordingSafety` | app/services/recordings.py:66-95 | over every run: no refused update and no missing task, at most one flush a recording, the viewer address is set exactly while ready, a stopped row carries the redacted answer of its flush |
| `RecordingGuarantees.FlushAnswerIsTheControllers` | app/services/recordings.py:80-84 | the answer a flush publishes is one the controller returned for that recording's stop |
| `RecordingGuarantees.EndedIsFinal` | app/services/recordings.py:66-95 | a recording that stopped or failed never changes again in any key, whatever follows, restarts included |
| `RecordingGuarantees.OnlyTheFlushWritesAfterStop` | app/services/recordings.py:77-91 | once the stop has begun, no step but publishing the flush or a restart changes the row |
| `RecordingGuarantees.PollsNeverWriteAfterStop` | app/services/recordings.py:169-186 | in every state reachable after the stop began, before or after the flush succeeded or failed and after restarts, publishing a poll leaves the row as it is |
| `RecordingGuarantees.QuietUntilTheFlush` | app/services/recordings.py:77-91 | over every continuation up to the flush's publication or a restart the row stands still |
| `RecordingGuarantees.WhenPollsRaise` | app/services/recordings.py:171-186 | in every state a step raises if and only if it publishes a poll of a ready row with no reading and an empty redacted message; the rows stay |
| `RecordingGuarantees.EmptyMessageRaises` | app/services/recordings.py:178-185 | the run in which a failure with such a message makes the poll raise |
| `RecordingGuarantees.PollsRaiseForEmptyMessages` | app/services/recordings.py:178-185 | over all runs no poll raises if and only if no message is empty once redacted |
| `RecordingGuarantees.PerUserLimit` | app/services/recordings.py:130-143 | in every reachable state a user has at most max_recordings_per_user active recordings |
| `RecordingGuarantees.SavedCodeIsTheFlush` | app/routes/recordings.py:86-98 | what a save turns into a version is the redacted answer of that recording's only flush, and not empty |
| `ScenarioVersions.ScenarioStore.AddVersion` | app/services/versions.py:7-23 | appends one version numbered one above the highest, points the scenario at it and keeps every other key |
| `ScenarioVersions.ContentSurvives` | app/services/versions.py:12-19 | a version holds its content under the number, scenario, user and identity of its creation |
| `ScenarioVersions.LocksAreExclusive` | app/services/versions.py:8 | the scenario's lock goes to one session at a time, with the committed body |
| `ScenarioVersions.HoldersReadAndRelease` | app/services/versions.py:9-11 | the holder reads the number of the latest version, and may release without a write |
| `ScenarioVersions.HoldersCommit` | app/services/versions.py:12-22 | in every reachable state the holder's version becomes the next and current one, and its patch changes what it names; every other key stays |
| `ScenarioVersions.MaxIsLength` | app/services/versions.py:9-11 | on gapless numbers the highest number is the count, so the next number continues them |
| `ScenarioVersions.VersionsAreGapless` | app/services/versions.py:7-23 | under any interleaving of creations, saves and patches the numbers are exactly 1 to n, ids are distinct and the current version is version n |
| `ScenarioVersions.VersionsNeverChange` | app/store.py:81-82 | committed versions stay where they are with the bodies they have, whatever follows, attempts to update one included: the store refuses them |
| `ScenarioVersions.SaveKeepsWhatSlippedIn` | app/routes/recordings.py:96-98 | after its second lock a save changes nothing of the committed scenario but its current version, however stale its first copy |
| `Runs.BeginWrites` | app/jobs.py:89-95 | a queued or running row becomes running with a start time, an ended one stays |
| `Runs.CancelWrites` | app/services/runs.py:116-117 | a queued or running row becomes cancelled with an end time, an ended one stays |
| `Runs.FinishWrites` | app/jobs.py:149-163 | the row reports status, verification, summary, error and end time of the result; cancelled if it was; refused if redaction left no status word |
| `Runs.NewRunHolds` | app/services/runs.py:54-70 | a new run is queued, pending and empty, with exactly its inputs |
| `Runs.RerunHolds` | app/services/runs.py:84-97 | a rerun starts over under its own identity, names its original, and copies every other key |
| `Runs.RequestedVersionWins` | app/services/runs.py:43-48 | a requested version is taken before the current one, and only from that scenario |
| `Runs.BeginExecution` | app/jobs.py:89-95 | a terminal row is left alone and not executed; any other becomes running |
| `Runs.CancelRun` | app/services/runs.py:112-119 | a terminal row is left alone; any other is cancelled |
| `Runs.FinishRun` | app/jobs.py:149-163 | a cancelled row stays cancelled, any other takes the redacted status word, and a refused update changes nothing |
| `Runs.CollectSnapshots` | app/services/runs.py:40-48 | one snapshot a scenario in order (the requested version, else the current one, of that scenario), or the error of the first scenario that has none |
| `Runs.RerunCopiesTheInputs` | app/services/runs.py:84-97 | versions, environment, role, retries and timeout of a rerun are those of the original |
| `RunProtocol.FinishedBody` | app/jobs.py:149-163 | an accepted finish keeps the inputs and writes the redacted word unless the row was cancelled |
| `RunProtocol.CloseOk` | app/jobs.py:132-147 | a finish or its fallback is refused only if redaction changed its status word |
| `RunProtocol.ReactOk` | app/jobs.py:85-196 | every step of a run's task and every cancel keeps the per-run invariant and only moves the run forward |
| `RunProtocol.StepKeepsInv` | app/jobs.py:85-196 | every step of all runs, reruns and restarts keeps the invariant and the slot count |
| `RunEffects.CreatesQueued` | app/services/runs.py:54-74 | a new run waits with its inputs and one queued event |
| `RunEffects.RerunsQueued` | app/services/runs.py:97-108 | a rerun waits with what its request read of the original, whatever became of that since |
| `RunEffects.AdmittedWithASlot` | app/jobs.py:86 | a waiting task is admitted if and only if fewer tasks than slots are under way |
| `RunEffects.BeginsOrIsOver` | app/jobs.py:89-95 | an admitted run begins unless it was cancelled while it waited |
| `RunEffects.AnswersAreHandled` | app/jobs.py:101-137 | a terminal result goes to the finish, any other and any exception to the fallback, and events are logged as they come |
| `RunEffects.FinishesReport` | app/jobs.py:149-196 | in every reachable state a finish reports the result and logs it once, under cancelled if the row was, and is refused if and only if redaction touched the word of a run that was not |
| `RunEffects.FallbacksReport` | app/jobs.py:135-147 | the fallback reports an error in the same way; if that is refused too the row stays |
| `RunEffects.CancelsTakeEffect` | app/services/runs.py:112-121 | in every reachable state a cancel leaves an ended run alone, and makes any other cancelled and logs it once |
| `RunEffects.RestartsEndEverything` | app/jobs.py:41-71 | after a restart every run has ended, and exactly those queued or running are in error with one more error event |
| `RunGuarantees.RunSafety` | app/jobs.py:149-196 | over every run of the system: slots never exceed the semaphore, each run commits at most one finish, one cancellation and one interruption event, and no finish is refused if no secret occurs in a status word |
| `RunGuarantees.RefusedForStatusWords` | app/jobs.py:149-163 | over all runs of the system no finish is refused if and only if redaction touches no terminal status word |
| `RunGuarantees.TerminalAndInputsAreFinal` | app/domain.py:72-76 | whatever follows, a terminal status stays, inputs and original never change and the event log only grows |
| `RunGuarantees.SameInputs` | app/services/runs.py:54-62 | the inputs that stay are versions, snapshot, sealed environment, role, retries and timeout |
| `RunGuarantees.CancelWins` | app/services/runs.py:115-121 | after a committed cancel the run is cancelled for good, whatever the runtime returns |
| `RunGuarantees.RerunsRepeatTheRoot` | app/services/runs.py:78-98 | every member of a rerun chain of any length has the inputs its root was created with, whatever happened in between |
| `RunGuarantees.RunningBound` | app/jobs.py:86-147 | the rows in running never exceed the limit, in all reachable states, if and only if no environment's redaction touches the word error |
| `Recovery.CloseRow` | app/jobs.py:45-70 | a run that is queued or running and a recording that is starting, ready or stopping becomes an error, any other row is untouched |
| `Recovery.Recover` | app/jobs.py:41-83 | over all rows: each is left as `Recovery.NothingIsLeftOpen` and `Recovery.ClosedRowShape` describe; the interrupted list and the run.error events name the closed ones, once each, in row order |
| `Recovery.ActivePositionsAreExact` | app/jobs.py:45-62 | the lists hold an index if and only if its row was queued, running, starting, ready or stopping, in increasing order |
| `Recovery.ClosedRowShape` | app/jobs.py:46-83 | a closed row is in error with exactly the interruption's text and, if the clean-up failed, the clean-up's; a recording loses its viewer; every other key stays |
| `Recovery.NothingIsLeftOpen` | app/jobs.py:41-83 | afterwards no run is queued or running and no recording starting, ready or stopping, and exactly the rows that were have changed |
| `Recovery.RecoveryIsLegal` | app/jobs.py:46-70 | closing is an update the store accepts |
| `Tenants.TenantStore.CreateOrganization` | app/services/tenants.py:105-119 | the creator becomes owner of a new organization |
| `Tenants.TenantStore.ChangeMember` | app/services/tenants.py:175-215 | role change, removal and departure with every refusal, in the order the code checks them |
| `Tenants.TenantStore.Invite` | app/services/tenants.py:228-271 | refusals in order; otherwise the pending invitation for the address is revoked and a new one added |
| `Tenants.TenantStore.Revoke` | app/services/tenants.py:273-294 | a pending invitation is revoked, a revoked one stays, an accepted one refuses |
| `Tenants.TenantStore.Accept` | app/services/tenants.py:296-323 | repeating an acceptance as a member changes nothing; an expired or settled invitation is refused; otherwise one membership with the invited role |
| `TenantEffects.CreatesWithAnOwner` | app/services/tenants.py:105-119 | an organization is created once, with its creator as owner |
| `TenantEffects.ChangesByAuthority` | app/services/tenants.py:175-215 | a member is changed or removed if and only if the acting member leaves, is an owner, or is an admin and present and new role are plain, and the organization keeps an owner; which refusal is given otherwise, and that nothing else moves |
| `TenantEffects.StrangersChangeNothing` | app/permissions.py:28-36 | whoever is no member of the organization changes nothing in it |
| `TenantEffects.MissingMembersAreNotFound` | app/services/tenants.py:177-179 | nor is a change to somebody who is no member carried out |
| `TenantEffects.PlainMembersGovernNobody` | app/services/tenants.py:64-68 | no operation of a member or viewer touches another membership or, but for their own acceptance, an invitation of the organization |
| `TenantEffects.InvitesByAuthority` | app/services/tenants.py:228-271 | an invitation is made if and only if the acting member governs its role and those of the pending ones it replaces, and the address is no member's; it lasts seven days and the ones before it are revoked |
| `TenantEffects.RevokesByAuthority` | app/services/tenants.py:273-294 | an invitation is withdrawn if and only if it is the organization's, not accepted, and the acting owner or admin governs its role |
| `TenantEffects.AcceptsOnce` | app/services/tenants.py:296-323 | an invitation is accepted if and only if it is addressed to the user, pending, not expired and the user no member, or was accepted by this member before; which refusal is given otherwise |
| `TenantGuarantees.ChangeKeepsAnOwner` | app/services/tenants.py:184-191 | refusing to change the only owner is enough for every change to leave one |
| `TenantGuarantees.TenantSafety` | app/services/tenants.py:105-323 | over every history: each organization has an owner, an address has at most one pending invitation to an organization, and accepted invitations and memberships made by acceptance correspond one to one |
| `TenantGuarantees.NoPendingInvitationForMembers` | app/services/tenants.py:231-250 | no member ever has a pending invitation, in all histories, if and only if lower and casefold agree on all registered addresses |
| `TenantGuarantees.AcceptNeverFindsAMember` | app/services/tenants.py:309-310 | the same condition decides whether the already-member branch of an acceptance is ever taken |
| `TenantGuarantees.SelfInvitationIsPending` | app/services/tenants.py:231-238 | the two-step history that shows it for an address on which they disagree |
| `TenantGuarantees.ExecForward` | app/services/tenants.py:246-313 | organization, address, role and expiry of an invitation never change, and a settled one never moves again |
| `TenantGuarantees.AcceptingAgain` | app/services/tenants.py:305-308 | after an acceptance and any history, accepting again changes nothing: it succeeds while still a member and is refused after leaving |
| `TenantGuarantees.MembershipsHaveASource` | app/services/tenants.py:105-323 | a membership appears only by creating the organization or by one recorded acceptance, with the invited role |
| `TenantGuarantees.OnlyOwnersGovernAdmins` | app/services/tenants.py:64-68 | no operation of a non-owner demotes, removes or makes another owner or admin, nor withdraws an admin's pending invitation |
| `Throttle.AuthAttempts.Attempt` | app/auth.py:79-95 | the upsert inserts, restarts or counts on, and accepts while the count is within the limit |
| `Throttle.LaterAttempts` | app/auth.py:85-91 | a later attempt of a bucket has a higher count in the same window or belongs to a window that starts after the earlier one expired |
| `Throttle.AttemptInWindow` | app/auth.py:84-90 | an attempt lies in the window it is counted in, and the first one at its start |
| `Throttle.ThrottleBound` | app/auth.py:79-95 | every closed five-minute interval has at most 2 * limit - 1 accepted attempts of a bucket |
| `Throttle.RefusalsHaveACause` | app/auth.py:79-95 | whoever is refused has made at least limit other attempts of the bucket in the five minutes before |
| `Throttle.ThrottleBoundIsAttained` | app/auth.py:79-95 | for every limit there are attempts that reach that bound |
| `Urls.FromPathExact` | src/runtime/recorder.ts:44 | parsing pathname + search + hash of a parsed URL gives path, query and fragment back, except that empty ones are gone |
| `Urls.ResolveDoubleSlash` | src/runtime/recorder.ts:44 | a reference whose path starts with two slashes never resolves to its target |
| `Urls.ReferenceResolves` | src/runtime/recorder.ts:44 | for any parser whose results are well formed and a base of the same origin: resolving the reference gives the target back if and only if userinfo agrees, the path does not start with two slashes, and query and fragment are not present but empty |
| `Bindings.RenderedExpressionsReadBack` | src/runtime/recorder.ts:43-55 | the text of every binding reads back as that binding, whatever quotes and backslashes name and reference hold |
| `Bindings.RenderedTexts` | src/runtime/recorder.ts:43-55 | the exact text of every binding, for names and references without quotes and backslashes |
| `Rebind.Binder.VisitSelf` | src/runtime/recorder.ts:34-57 | what one node adds to edits and checks, and when it throws |
| `Rebind.Binder.Visit` | src/runtime/recorder.ts:32-62 | the walk collects exactly the edits and checks of the tree in order, numbers the checks 1 to n, and throws if and only if some navigation has no named website |
| `Rebind.Binder.CollectSecrets` | src/runtime/recorder.ts:52-56 | one edit for each string literal argument that spells a secret, in order |
| `Splice.ApplyEdits` | src/runtime/recorder.ts:64 | sorting by descending start and splicing one after the other equals simultaneous substitution |
| `Splice.OrderIsIrrelevant` | src/runtime/recorder.ts:64 | the result does not depend on the order in which the edits were collected |
| `Splice.CopiedBetween` | src/runtime/recorder.ts:64 | text between edits is copied character by character |
| `Navigation.NavigationsAreBound` | src/runtime/recorder.ts:37-46 | a literal is left alone if and only if it is no absolute URL, refused if and only if no website has its origin, and else bound to a website of its origin, directly if that is the target itself |
| `Navigation.WebsitesAreParsed` | src/runtime/recorder.ts:28 | the websites are read in order with their names, and the call fails if and only if one is no URL |
| `Navigation.SortedMembers` | src/runtime/recorder.ts:28 | sorting loses and adds no website |
| `Navigation.SecretsAreFound` | src/runtime/recorder.ts:54 | a secret is found if and only if one has the value, and the first such |
| `RebindGuarantees.EmptySecretsAreDropped` | src/runtime/recorder.ts:29 | exactly the secrets with a value count |
| `Navigation.ChosenWebsite` | src/runtime/recorder.ts:28-42 | an exact match beats any match of the origin, the preferred website wins among equals, otherwise the first in order, and none if and only if no website has the target's origin |
| `Navigation.PreferredElseFirst` | src/runtime/recorder.ts:28 | the sort lets the preferred website win wherever it is wanted and changes nothing where it is not |
| `Navigation.SecretsKeepTheirValue` | src/runtime/recorder.ts:54-55 | a replaced secret literal evaluates to the text it replaced |
| `Navigation.RebindingKeepsNavigation` | src/runtime/recorder.ts:37-46 | evaluated with the recorded websites, a rebound navigation leads to its recorded target if and only if the target is the chosen website itself or meets the condition of `Urls.ReferenceResolves` |
| `Navigation.EmptyQueryIsLost` | src/runtime/recorder.ts:44 | the navigation to `https://shop.test/?` is rebound to an expression that leads to `https://shop.test/` |
| `Navigation.ExcerptIsValid` | src/runtime/recorder.ts:39 | a parser that knows these two addresses meets the assumptions |
| `RebindGuarantees.EditsApart` | src/runtime/recorder.ts:32-62 | the collected edits lie in the tree's span and never overlap |
| `RebindGuarantees.EditsReplaceLiterals` | src/runtime/recorder.ts:37-56 | every edit replaces the literal target of a navigation by that target's binding, or a literal argument of another method call by the secret it spells; nothing else is touched |
| `RebindGuarantees.OwnEditsAreKept` | src/runtime/recorder.ts:58-61 | no edit a call asks for is forgotten by the walk |
| `RebindGuarantees.GotosAreEdited` | src/runtime/recorder.ts:37-46 | every literal navigation, anywhere in the tree, to an absolute URL of a website's origin is rebound |
| `RebindGuarantees.SecretsAreEdited` | src/runtime/recorder.ts:52-56 | every string literal that spells a secret as an argument of a method call other than goto is replaced |
| `RebindGuarantees.RefusedForAnUnnamedSite` | src/runtime/recorder.ts:42 | rebinding is refused if and only if some literal navigation of the tree is an absolute URL whose origin no website has |
| `RebindGuarantees.OwnCheck` | src/runtime/recorder.ts:48-51 | a call gives one check if and only if it asserts with a known matcher on expect, with its own text and that of its argument, or what the matcher stands for |
| `RebindGuarantees.AssertionsAreRecorded` | src/runtime/recorder.ts:58-61 | the checks of a tree are exactly those of the calls in it |
| `RebindGuarantees.BindRecordingCode` | src/runtime/recorder.ts:24-66 | the whole function: an error if and only if a website is no URL or a navigation strays, otherwise the simultaneous substitution of all edits, with the checks in walk order |
| `Framing.LinesBecomeEvents` | src/runtime/runner.ts:89 | a marked line is one event, structured if it parses; an unmarked line is plain output if it is not blank and nothing otherwise |
| `Framing.TailsArePlain` | src/runtime/runner.ts:90 | an unterminated tail is plain output if it is not blank, marked or not |
| `Framing.SplitIsExact` | src/runtime/runner.ts:89 | lines and tail put together again are the text |
| `Framing.SplitIsComplete` | src/runtime/runner.ts:89 | no line and no tail contains a newline |
| `Framing.SplitAppend` | src/runtime/runner.ts:89 | of a text in two parts only the tail of the first meets the second |
| `Framing.StdoutReader.OnLine` | src/runtime/runner.ts:89 | a marked line that parses is one structured event, a marked line that does not and any other nonblank line are plain output, a blank line is nothing |
| `Framing.StdoutReader.OnData` | src/runtime/runner.ts:89 | after every chunk the events are those of the complete lines received so far and the buffer is the unterminated rest |
| `Framing.StdoutReader.OnClose` | src/runtime/runner.ts:90 | a nonblank unterminated tail becomes plain output |
| `Framing.ReadAll` | src/runtime/runner.ts:87-91 | for every way to cut the output into chunks the events are those of the whole text |
| `Verdict.AssertionsCountExpectSteps` | runtime/runner/reporter.mjs:7-12 | the count kept for an attempt is the number of its finished expect steps since it last began |
| `Verdict.Reporter.OnEnd` | runtime/runner/reporter.mjs:26-38 | the loop counts what the six counts are defined to be, and the report's status and verification follow from them |
| `Verdict.SummaryCounts` | runtime/runner/reporter.mjs:28-34 | each of the six counts is the number of tests that end that way |
| `Verdict.StatusMeans` | runtime/runner/reporter.mjs:36 | error for an empty suite, else what stopped Playwright, else passed if it passed and every test was skipped or passed in the end, else failed |
| `Verdict.VerificationMeans` | runtime/runner/reporter.mjs:37 | unverified if no test asserted, verified if all did, partial otherwise |
| `Verdict.SummaryPartitions` | runtime/runner/reporter.mjs:28-34 | passed, failed and skipped partition the tests, flaky is within passed, unverified and skipped are apart |
| `Verdict.GreenReport` | runtime/runner/reporter.mjs:28-38 | the report is passed, verified and without flaky tests if and only if Playwright passed a nonempty suite in which every test's last attempt passed with an assertion counted and no attempt failed or timed out |
| `Verdict.OverridesDecide` | src/runtime/runner.ts:92-107 | which override decides the status, in order of force, and that verification and summary are the report's |
| `Verdict.NoOverrideProducesPassed` | src/runtime/runner.ts:92-107 | the host's result is passed if and only if the report was and none of the overrides of entry script and host applied, and then it is the report |
| `Verdict.FinishedFields` | app/jobs.py:130-163 | a finished row is passed if and only if the host's result is, the run was not cancelled and redaction left the word alone; verification and summary are then the result's |
| `Verdict.ExitZeroMeansGreen` | scripts/cli.py:69-72 | on the finished row: exit code 0 if and only if the run was not cancelled, no override applied, redaction left passed and verified alone, Playwright passed, the suite is not empty, and every test's last attempt passed with a finished expect step and no attempt failed or timed out |

## Left out

- Recordings.PublishFlush: what redaction hides is not stated, because the marker and the header rewrite depend on the secrets; redaction is a parameter, and so is the cut to 2000 characters.
- RecordingProtocol.StepKeepsInv: a sweeper pass is one stop request for each row it picks; the expiry test and the order of one pass (app/services/recordings.py:98-112) only decide which requests are made.
- RunEffects.FallbacksReport: the text of a failed run's error is not carried through; the other four keys of its report are.
- RunGuarantees.RunSafety: events relayed from the runtime are not counted, because their type is the runtime's text and may be any word.
- RebindGuarantees.EditsApart: the tree holds of each node the children in which calls can occur, nested and in source order; other shapes, such as a shorthand property whose key and value share a span, carry no calls.
- Rebind.Binder.VisitSelf: the titles of checks use a parameter for readable secrets and the cut of text.
- Urls.ReferenceResolves: parsing of absolute URLs and of authorities is a parameter; tabs and newlines in a reference cannot occur, because a parsed URL has none.
- Bindings.RenderedExpressionsReadBack: control characters, which JSON escapes differently, cannot occur in a parsed URL or in a name the service accepts.
- Framing.ReadAll: a chunk boundary inside a multi-byte character, and masking and time stamps of events, are not modelled.
- Verdict.Reporter.OnEnd: the reporter's own splitting of test output into events is not modelled.
- Throttle.AuthAttempts.Attempt: hashing of the bucket key is not modelled.
- Requests that fail because the database does, and tasks cancelled at shutdown, are not modelled.
- Docker, the network sandbox, the egress proxy, the recorder's sessions and artifact scanning: foreign processes.
- HTTP routes, cookies, WebSockets, media views, telemetry and OpenAPI: plumbing with easy properties.
- Sealing, password hashing, token generation and hashing: identifiers stand for tokens and their hashes.
- SQL text, migrations and the database's own unique indexes: the model proves the invariants without them.
- Renaming of organizations and workspaces, and project patches, which neither lock nor merge a JSON body.
