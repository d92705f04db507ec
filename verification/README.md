# The preview hub: a verified model

The hub builds a preview environment for every pull request of a repository. GitHub webhooks, an admin
UI, build agents, a reconciler and a restarting hub all write to one table of previews and its event log,
none of them waiting for the others. Agents hold a WebSocket session each, build what they are assigned,
and report back. This project models that core in Dafny and proves what it keeps.

## The parts

| files | what they hold |
|---|---|
| `Previews`, `Queries`, `History` | the two tables as values, the meaning of every SQL statement, and what every history of transactions guarantees |
| `PreviewStore` | the store as a class whose four transactions change the tables in place |
| `Hub`, `HubRuns`, `HubSafety`, `DispatchSafety`, `ClaimTrace` | every request handler as a thread over the store, interleaved step by step, and what every run keeps |
| `OneActive`, `Webhook` | the pull-request handlers and the rule of one active preview per pull request, with the handler as one step |
| `OneActiveHub`, `OneActiveExact`, `OneActiveRuns` | that rule in the interleaved system: a guard on each step that keeps it, why no weaker guard does, and two runs that break it |
| `AdhocRows`, `AdhocHub`, `AdhocExact` | test builds and the rule of one ad hoc preview per branch, likewise |
| `StatusUpdater`, `Dispatcher`, `Sweep` | status reports, READY, HELLO synchronisation and the stale reconciler, each run from start to end |
| `HubSerial` | the handlers of the interleaved system, left undisturbed, are the handlers run from start to end |
| `Sessions` | the connection registry and the add, online, offline, remove bracket of a session, interleaved |
| `Runner`, `RunnerFrames` | the agent: job and teardown handlers interleaved statement by statement, and what a statement touches |
| `RunnerCounts`, `RunnerSafety`, `RunnerStrands` | the counter and the reported IDs; who owns each worktree and container; exactly which overlaps strand one |
| `RunnerProjects`, `RunnerProjectsExact` | who owns each compose project, and exactly which steps leave one over |
| `RunnerJobs`, `RunnerSerial` | the agent as an object, one call at a time, and its calls as runs of the statements |
| `SecretText`, `SecretLines`, `SecretStore`, `Dotenv`, `SecretsPath`, `Sets` | build secrets from the form through the store to the `.env` file, and what parser and writers do character by character |
| `TraefikProbe` | the polling loop that waits for routers |

Three forms of the same code appear, and are tied to each other. A *transaction* (`Op`, `Enabled`, `Apply`)
is the relational meaning of one commit; `PreviewStore`'s methods are proved against it. A *handler method*
(`HandleUpsert`, `OnReady`, `SyncOnHello`, ...) is the code run without interference; its contract gives the
whole new state, column by column (for `HandleUpsert` and the runner's `Handle` in the lemmas `PushMeans` and
`HandleMeans` about the state it names). A *system* (`Hub`, `Sessions`, `Runner`) splits the handlers at every access to shared state
and lets any of them move next; a handler that nothing disturbs is the handler method again (`HubSerial`,
`RunnerSerial`). Invariants are proved of all runs, by induction on the run.

Because the database has a single connection (`internal/db/sqlite/open.go:43`), a transaction is one atomic
step. In `Hub` any store call may fail at any time. Times are opaque keys in a total order, because the text
form of a timestamp does not sort by time; the log is ordered by insertion.

## What does not hold

Some promises are not kept by the code. Each has an exact condition, proved in both directions where one is
stated as "iff", and a reachable state or a run that fails it:

- A `synchronize` event keeps one active row per pull request iff it has a sha, meets no active row without
  one, or has its upsert fail (`SynchronizeKeepsOneActiveIff`; `UnknownShaBreaksIt` is an event that fails it).
  `opened`, `reopened`, and a `synchronize` whose lookup of the active row failed (the handler ignores that error, `internal/hub/webhook_handler.go:248`) go straight to
  the upsert, for which `OpenKeepsOneActiveIff` is the condition: the row it lands must be the only active one
  (`OpenBreaksIt` is an `opened` event that fails it).
- The handler is not atomic. In the interleaved system the rule holds in every run of careful steps
  (`OneActiveInEveryRun`): no event begins beside an active row that it neither supersedes nor is the commit of,
  nor while an event for another commit of the same pull request is under way; and no rebuild or late report makes
  a row active beside another one or in the way of an event. `OneActiveExact.CarefulIff` says this is exact: any
  other step can be completed to two active rows by the events under way, and no careful one can. Events of one
  commit, or of different pull requests, may overlap. A pending reopening counts where its row is by now.
  `OneActiveRuns.OverlapBreaksIt` and `SharedShaBreaksIt` are two runs that break it.
- A status report or a rebuild keeps one active row iff it does not make a second one
  (`UpdateKeepsOneActiveIff`); a report that is late by one supersede does (`LateReportBreaksIt`).
- `closed` acts on the newest row of any status, so it leaves no active row iff no other row was active
  (`CloseLeavesNoActiveIff`; `CloseLeavesOneActive` is a state that fails it).
- A status report that would fill a missing sha with one another row of the repository has is lost as a
  whole, status included (`ReportTakesEffectIff`; `ShaReportIsLost` is such a report).
- A webhook that moves an ad hoc row to another branch can make two ad hoc rows there (`UpsertKeepsOneAdhocIff`;
  `WebhookMovesAdhocRow` is such a webhook), and so can two overlapping submissions of one branch with different
  or unknown commits (`AdhocExact.OverlapBreaksIt`). `AdhocExact.CarefulIff` says which steps are at fault, in the
  same sense as above.
- A `.env` file reads back as written iff every key is a valid name and no value holds a line break, LF or CR
  (`DotenvKeepsValuesIff`; `NewlineIsLost` is a value that does not). The form never accepts anything else, so the path from the form to the file is
  lossless (`SaveThenBuild`).
- A worktree or container can outlive its job. `OrderlyIff` says exactly when: a Handle begins beside a Teardown
  that found its job, or beside a job or a call of another repository that may still account for a worktree; a
  Teardown finds its job while a Handle may still make a worktree or a container; or builds of one preview in two
  modes overlap, or a compose build follows a Dockerfile job. Each such call can be completed to a stranded
  worktree or container by steps already under way, and no other can. Overlapping Handle calls of one repository
  and mode, and a Teardown during a Handle's clean-up, are harmless. `OverlapStrands` and `TwoModesStrand` are
  two such runs. For a caller who knows only the state, `HandleAlwaysSettlesIff` is the condition.
- A compose project can outlive its job. For an undisturbed build: iff a `compose up` fails with something started,
  or a Dockerfile build succeeds over a compose job (`ProjectSettlesIff`; `FailedUpLeavesProject` is such a build).
  Among orderly overlaps: iff a Teardown finds its job while a compose build goes on, a Dockerfile build is chosen
  over a project, or a `compose up` fails half-way with no compose job registered or about to be
  (`RunnerProjectsExact.MindsIff`).
- An agent without a connection can be marked online. `DisconnectedOnlineIff` says exactly when: the write that
  decides is an offline write that did not commit, or an online write that did although its session saw an error
  (`LostOfflineWrite` is a run).

## Model

| member | source | states |
|---|---|---|
| History.LogIsChain | internal/db/sqlite/preview_store.go:111-125 | in every history, a preview's events start NULL to queued, each starts where the one before ended, the last ends at the row's status, and there is one more than the status-changing operations that hit the row |
| History.RowIsFold | internal/db/sqlite/preview_store.go:201-238 | every column of every row is a fold of the history by that column's own rule: last supplied, last upsert, first non-empty sha, most recent URLs, last agent since the last reset unless deleted, time of the last operation |
| History.ShaUniqueAlways | db/schema/0006_sha_keyed_previews.sql:30 | a non-empty sha belongs to at most one row of a repository in every history, and no row stores an empty sha |
| History.ShaNeverChanges | internal/db/sqlite/preview_store.go:197-199 | between any two moments of a history, rows stay and a sha once known stays |
| Store.PreviewStore.Upsert | internal/db/sqlite/preview_store.go:49-133 | inserts a queued row, or refreshes the row with the same repository and sha and returns it as it was; a used ID changes nothing |
| Store.PreviewStore.UpdateStatus | internal/db/sqlite/preview_store.go:171-258 | the guards in order (missing row, stale status, other sha, the two table constraints); it commits exactly when none fires, and then every column of the row, and the event, are by their own rules; otherwise nothing changes |
| History.RuntimeColumns | internal/db/sqlite/previews.sql.go:652-664 | after every history, container, host and port are the last ones supplied, the error text that of the last call with an error or a message (the error if both), preview URLs what the most recent update carried or empty, and the update time that of the last operation |
| Store.PreviewStore.Claim | internal/db/sqlite/previews.sql.go:14-27 | takes a row of least creation time among the candidates that are still queued, and nothing exactly when none is |
| Store.PreviewStore.ResetAllAssigned | internal/db/sqlite/preview_store.go:368-434 | no assigned row is left; the count returned equals the rows changed and the events added, one for each |
| Store.ResetMeans | internal/db/sqlite/preview_store.go:383-427 | the meaning of that reset for any listing of the assigned rows |
| Store.PreviewStore.ListQueuedForCandidates | internal/db/sqlite/previews.sql.go:482-484 | the 50 oldest queued rows, oldest first, each once, and all of them when there are fewer |
| Store.PreviewStore.GetActiveByRepoAndPR | internal/db/sqlite/previews.sql.go:101-112 | a newest row among the queued, assigned, building and running ones of the pull request |
| Store.PreviewStore.FindAdhocByBranch | internal/db/sqlite/previews.sql.go:139-151 | a newest row among the ad hoc ones of the branch |
| HubSafety.CallersAlways | internal/hub/ws_handler.go:257-265 | in every interleaving, with failing store calls, restarts and agents coming and going, every committed status change obeys its caller's discipline |
| HubSafety.ChangesSeeWhatTheyExpect | internal/hub/reconciler.go:52-63 | at the moment it commits, a requeue by the reconciler finds the row still assigned, a HELLO failure finds the listed status, and every guarded change finds what its caller read |
| HubSafety.EdgesAlways | internal/db/sqlite/preview_store.go:344-353 | in every run an event into assigned comes from queued, and one into queued from NULL, queued, assigned, done or failed |
| HubSafety.RequeuedBetweenAssignments | internal/db/sqlite/previews.sql.go:14-27 | between two assignments of one preview there is an event that put it back in the queue |
| HubSafety.HeldRowsNameAnAgent | internal/db/sqlite/preview_store.go:226-231 | while no agent is deleted, every assigned, building or running row names an agent |
| DispatchSafety.AccountedAlways | internal/hub/dispatcher.go:108-127 | in every run the claims are, without overlap, those sent, those about to be sent and those a restart cut off, and no two attempts answer one claim |
| DispatchSafety.OneAttemptPerClaim | internal/hub/dispatcher.go:108-127 | a claim has exactly one JOB_ASSIGN attempt, to the claiming agent, unless its handler has yet to reach it or was killed by a restart |
| DispatchSafety.NoAttemptWithoutClaim | internal/hub/dispatcher.go:124-127 | every JOB_ASSIGN attempt is for a claim of that preview by that agent |
| DispatchSafety.ClaimHasItsEvent | internal/db/sqlite/preview_store.go:344-353 | each claim has its own queued-to-assigned event, in the order of the claims |
| DispatchSafety.AssignmentsAreClaims | internal/db/sqlite/preview_store.go:344-353 | every event into assigned is the event of some claim |
| ClaimTrace.ClaimIsTraced | internal/hub/dispatcher.go:86-115 | in every run each claimed row was in the snapshot its handler had listed, queued and with labels the agent had when read; when claimed it was still queued, and no matching row still queued was older |
| OneActive.SynchronizeKeepsOneActiveIff | internal/hub/webhook_handler.go:249-313 | the exact condition under which a synchronize, with or without a sha and whichever writes fail, keeps at most one active row per pull request, also when the upsert moves a row between pull requests |
| OneActive.UnknownShaBreaksIt | internal/hub/webhook_handler.go:249-289 | a reachable state and a synchronize without a sha that makes a second active row |
| OneActive.SynchronizeIsSafe | internal/hub/webhook_handler.go:249-313 | with a sha the rule survives whichever of the handler's writes fails, and once the superseding write is through every active row of the pull request has the new sha |
| OneActive.TailKeepsOneActiveIff | internal/hub/webhook_handler.go:284-313 | the exact condition for the upsert and reopening alone, as for opened and reopened |
| OneActive.UpdateKeepsOneActiveIff | internal/hub/status_update.go:62 | the exact condition for any other status change |
| OneActive.TameStep | internal/db/sqlite/preview_store.go:314-434 | claims, requeues, restart resets, closes, HELLO failures and reports about active rows keep the rule, and so does whatever happens to rows outside any pull request |
| OneActive.OpenKeepsOneActiveIff | internal/hub/webhook_handler.go:284-313 | opened, reopened, or a synchronize whose lookup failed keeps the rule, whichever writes fail, exactly when the row it lands finds no other active one |
| OneActive.OneActiveAlways | internal/hub/webhook_handler.go:236-313 | the rule holds in every run of such steps, synchronize events with a sha, and opened or reopened events that find room |
| OneActive.OpenBreaksIt | internal/hub/webhook_handler.go:284-313 | an opened event while an older preview of the pull request is active makes a second active row |
| OneActiveHub.PrInvAlways | internal/hub/webhook_handler.go:249-313 | in every run of careful steps, no active row is in the way of an event under way, and no two events under way are for different commits of one pull request |
| OneActiveHub.OneActiveInEveryRun | internal/hub/webhook_handler.go:236-326 | with handlers split at every store call, failing calls, restarts and agents coming and going, events with or without a sha, no pull request has two active rows in any run of careful steps |
| OneActiveExact.UnbreakableIff | internal/hub/webhook_handler.go:249-313 | in any well-formed state with new preview IDs, reached carefully or not, that invariant holds exactly when the events under way, with agents reporting previews done or failed, cannot go on to two active rows of one pull request |
| OneActiveExact.CarefulIff | internal/hub/webhook_handler.go:236-326 | after any run of careful steps, a step is careful exactly when what is then under way cannot break the rule |
| OneActiveRuns.OverlapBreaksIt | internal/hub/webhook_handler.go:249-289 | two overlapping events of one pull request, each with an honest lookup, make two active rows |
| OneActiveRuns.SharedShaBreaksIt | internal/hub/webhook_handler.go:284-303 | so do overlapping events of two pull requests at one commit, when the second takes over the preview the first is about to reopen |
| OneActive.LateReportBreaksIt | internal/hub/status_update.go:62 | a report that arrives after its row was superseded makes a second active row |
| Webhook.WebhookHandler.HandleUpsert | internal/hub/webhook_handler.go:236-326 | the new tables (`PushMeans`) and the answer of an opened, synchronize or reopened event; at most one teardown request, made exactly for an active row that ends in teardown, to the agent it was with |
| Webhook.PushMeans | internal/hub/webhook_handler.go:236-326 | those tables column by column: the superseded row, the moved, reopened or inserted one, nothing else, and the events |
| Webhook.WebhookHandler.SupersedeActive | internal/hub/webhook_handler.go:249-271 | a newest active row of the pull request is torn down exactly if its sha differs, with its columns, its event and the request to its agent |
| Webhook.WebhookHandler.UpsertAndReopen | internal/hub/webhook_handler.go:273-313 | upsert, then a finished row is queued again or a new one notes what it supersedes |
| Webhook.WebhookHandler.HandleClose | internal/hub/webhook_handler.go:330-372 | the newest row of the pull request, whatever its status, goes to teardown, with its columns, its event and the request to its agent; without a row nothing happens |
| Webhook.CloseLeavesNoActiveIff | internal/hub/webhook_handler.go:415-427 | closing removes exactly the newest row from the active ones, so none is left iff no other was active |
| Webhook.CloseLeavesOneActive | internal/hub/webhook_handler.go:415-427 | a reachable state in which closing leaves an older row active |
| StatusUpdates.OnStatusUpdate | internal/hub/status_update.go:38-82 | which field of a report goes to which column, with the retry without its sha; exactly which reports are refused |
| StatusUpdates.WrongShaIsNoSha | internal/hub/status_update.go:63-79 | a report with another sha than the row's has exactly the effect of the same report without one, one event included |
| StatusUpdates.ReportTakesEffectIff | internal/hub/status_update.go:62-82 | exactly which reports reach their row |
| StatusUpdates.ShaReportIsLost | internal/hub/status_update.go:62-82 | a reachable state and a report that is rejected as a whole, although without its sha it would be accepted |
| Dispatch.Dispatcher.OnReady | internal/hub/dispatcher.go:82-182 | undisturbed, claims an oldest row among the 50 oldest queued ones whose labels the agent has and sends it to that agent, each field of the job as the row and the repository's stored secrets have it; does nothing exactly when there is none |
| Dispatch.Dispatcher.HydrateBuildEnv | internal/hub/dispatcher.go:134-160 | the secrets' rows become exactly the repository's stored map, or none when they cannot be read |
| Dispatch.LabelsMatchLoop | internal/hub/labels.go:13-27 | true exactly when every label of the preview is one of the agent's |
| Dispatch.MatchesAre | internal/hub/dispatcher.go:98-103 | the matching loop keeps exactly the candidates whose labels the agent has |
| Sweep.WSHandler.SyncOnHello | internal/hub/ws_handler.go:341-404 | undisturbed, fails exactly the rows of this agent in assigned, building, running or teardown that it did not report, with one event for each and no other, and asks for teardown of exactly the reported ones that are no such row, in any map order |
| Sweep.WSHandler.FailLost | internal/hub/ws_handler.go:385-403 | each such row of the agent is failed and gets its own event, whatever the order of the walk; no other row changes |
| Sweep.HelloAgrees | internal/hub/ws_handler.go:350-403 | afterwards the agent holds exactly what both sides knew, nothing else moved, and repeating the HELLO changes nothing |
| Sweep.Tick | internal/hub/reconciler.go:48-95 | an undisturbed cycle requeues exactly the stale rows, with one event for each and no other, and counts the running rows of offline agents |
| Sweep.TickRecovers | internal/hub/reconciler.go:48-64 | afterwards no assigned row is older than the cutoff and no other row moved |
| AdhocRows.TestBuildSubmit | internal/hub/admin_ui.go:534-636 | a newest ad hoc row of the branch that is done or failed goes back to the queue with its runtime columns reset, any other is left alone, and without one a row is inserted or the row with the commit moved; with the events and the answer, including the error answer when the sha already had a row |
| AdhocRows.UpsertKeepsOneAdhocIff | internal/db/sqlite/previews.sql.go:698-711 | the exact condition under which an upsert, moving a row or not, keeps one ad hoc row per branch |
| AdhocRows.SubmitKeepsOneAdhoc | internal/hub/admin_ui.go:534-636 | a submission always does, even when its sha collides with another row |
| AdhocRows.OneAdhocAlways | internal/hub/admin_ui.go:534-636 | at most one ad hoc row per repository and branch in every run of serial submissions and other transactions |
| AdhocRows.WebhookMovesAdhocRow | internal/db/sqlite/previews.sql.go:698-711 | a reachable state and a webhook upsert that makes two ad hoc rows of one branch |
| AdhocHub.OneAdhocInEveryRun | internal/hub/admin_ui.go:534-636 | with submissions split at every store call, at most one ad hoc row per repository and branch in every run in which no submission goes on beside one of another commit of its branch and no webhook moves an ad hoc row beside another one or in a submission's way |
| AdhocExact.UnbreakableIff | internal/hub/admin_ui.go:534-636 | in any state with new preview IDs, reached carefully or not, the invariant behind it holds exactly when the submissions under way cannot go on to two ad hoc rows of one branch |
| AdhocExact.CarefulIff | internal/hub/admin_ui.go:534-636 | after any such run, a step meets that condition exactly when the submissions then under way cannot break the rule |
| AdhocExact.OverlapBreaksIt | internal/hub/admin_ui.go:534-636 | two overlapping submissions of one branch make two ad hoc rows |
| HubSerial.PushIsARun | internal/hub/webhook_handler.go:236-326 | an opened, synchronize or reopened event that nothing disturbs leaves the tables of `HandleUpsert` |
| HubSerial.CloseIsARun | internal/hub/webhook_handler.go:330-372 | a closed event leaves those of `HandleClose` |
| HubSerial.SubmitIsARun | internal/hub/admin_ui.go:534-636 | a test build leaves those of `TestBuildSubmit` |
| HubSerial.ReportIsARun | internal/hub/status_update.go:38-82 | a report leaves those of `OnStatusUpdate` |
| HubSerial.ReadyIsARun | internal/hub/dispatcher.go:82-128 | READY makes the claim of `OnReady` and one send for it |
| HubSerial.TickIsARun | internal/hub/reconciler.go:48-64 | a cycle of the reconciler leaves the rows and events of `Tick` |
| HubSerial.HelloIsARun | internal/hub/ws_handler.go:385-403 | a HELLO leaves those of `SyncOnHello` |
| HubSerial.TeardownsIsARun | internal/hub/admin_ui.go:656-690 | the button that clears an agent tears down exactly the rows it holds as assigned, building or running |
| HubSerial.RebuildIsARun | internal/hub/admin_ui.go:956-1010 | a rebuild puts a finished row back to the queue with its runtime columns reset |
| HubSerial.StopIsARun | internal/hub/admin_ui.go:1022-1050 | a stop tears a running row down |
| HubSerial.DeleteIsARun | internal/hub/webhook_handler.go:376-408 | a delete tears any row down |
| HubSerial.RestartMeans | internal/db/sqlite/preview_store.go:368-434 | a restart ends every handler and puts exactly the assigned rows back to the queue, their agent cleared |
| HubSerial.DeleteAgentMeans | internal/hub/admin_ui.go:450-470 | deleting an agent clears it from its rows and changes nothing else of them |
| Sessions.ConnRegistry.Add | internal/hub/ws_registry.go:42-50 | registers a connection exactly when its agent has none |
| Sessions.ConnRegistry.Remove | internal/hub/ws_registry.go:53-59 | removes the agent's entry only if it is this connection |
| Sessions.ConnectionIsTheSession | internal/hub/ws_registry.go:42-81 | in every run the registered connection of an agent is its one session between add and remove, and without one there is no such session |
| Sessions.WSJobSender.SendJobAssign | internal/hub/ws_registry.go:111-126 | writes to the agent's registered connection and to no other, and fails exactly without one or when the write fails |
| Sessions.InvAlways | internal/hub/ws_handler.go:163-201 | connections and sessions stay one to one and every session's place in its bracket is backed by the status log, in every interleaving |
| Sessions.OnlineIsConnected | internal/hub/ws_handler.go:163-201 | an agent marked online has a connection unless its latest status write reported an error |
| Sessions.OnlineAreConnected | internal/hub/ws_handler.go:163-201 | with writes succeeding, the agents online are among the connected ones and no agent has two sessions |
| Sessions.OlderNeverWritesLater | internal/hub/ws_handler.go:169-201 | once a newer session has written its agent's status, no older one writes it again, whatever fails |
| Sessions.OfflineEndsItsOwnOnline | internal/hub/ws_handler.go:186-201 | an offline write directly follows, among its agent's writes, the online write of the same session |
| Sessions.DisconnectedOnlineIff | internal/hub/ws_handler.go:169-212 | exactly which failures mark an agent online without a connection: the deciding write is an offline that did not commit or an online that committed while its session saw an error |
| Sessions.LostOfflineWrite | internal/hub/ws_handler.go:206-212 | a run with a refused offline write that does |
| RunnerSafety.InvAlways | internal/agent/runner.go:153-293 | every interleaving that the orderly condition allows, overlapping Handle calls of one preview included, keeps who owns each worktree, container and building mark |
| RunnerSafety.SettledBetweenHandlers | internal/agent/runner.go:170-182 | when no handler works on a preview, on every success and failure path, its worktrees belong to its job and its container is its Dockerfile job's |
| RunnerStrands.OrderlyIff | internal/agent/runner.go:153-398 | after an orderly run, a Handle that begins, a Teardown that looks for its job or a build that chooses its mode meets the orderly condition exactly when the workers then under way cannot end with a worktree or container left over |
| RunnerStrands.BeginStrands | internal/agent/runner.go:153-182 | a Handle that begins beside a Teardown that found its job, or beside a job or a call of another repository, can end so |
| RunnerStrands.LoadStrands | internal/agent/runner.go:366-392 | a Teardown that finds its job while a Handle may still make a worktree or container can end so |
| RunnerStrands.UseStrands | internal/agent/runner.go:255-288 | builds of one preview in two modes, or a compose build over a Dockerfile job, can end so |
| RunnerProjects.ProjectsSettledBetweenHandlers | internal/agent/runner.go:311-398 | in every interleaving that is orderly and minds the projects, when no handler works on a preview its compose project is there exactly if its job is a compose job |
| RunnerProjectsExact.MindsIff | internal/agent/runner.go:255-398 | after such a run, an orderly step minds the projects exactly when the workers then under way, their outside calls succeeding or failing cleanly, cannot finish with project and job apart |
| RunnerCounts.InFlightIsExact | internal/agent/runner.go:166-182 | in every run, whatever the callers do, inFlight is the number of accepted Handle calls in progress |
| RunnerCounts.BuildingIsExact | internal/agent/runner.go:167-173 | if no two Handle calls of one preview overlap, building holds exactly the previews of the calls between their mark and their deferred delete |
| RunnerCounts.NeverMissing | internal/agent/runner.go:96-115 | if no two Handle calls of one preview overlap, and whatever else overlaps, from the building mark until the build fails or a Teardown deletes the job the preview is among the IDs reported |
| RunnerCounts.ReportedIff | internal/agent/runner.go:96-115 | in such a run the IDs reported are exactly those of the registered jobs and of the calls between their mark and their deferred delete |
| RunnerJobs.Runner.Handle | internal/agent/runner.go:153-307 | the new state (`HandleMeans`) and the statuses sent, on every path |
| RunnerJobs.HandleMeans | internal/agent/runner.go:153-307 | that state thing by thing: refused, without checkout, without build, compose and Dockerfile build |
| RunnerJobs.Runner.Build | internal/agent/runner.go:199-307 | from checkout to registration, on every path |
| RunnerJobs.Runner.HandleDockerfile | internal/agent/runner.go:333-363 | a container exists afterwards exactly when it was created and started |
| RunnerJobs.Runner.TeardownJob | internal/agent/runner.go:366-398 | the whole new state; without a job it only answers done |
| RunnerJobs.Runner.RunningPreviewIDs | internal/agent/runner.go:96-115 | exactly the registered and building previews, each once |
| RunnerJobs.Runner.RestoreOrphans | internal/agent/orphan_restore.go:23-57 | every labelled container found becomes a job again and its preview is reported; a fresh process then is where the runs start |
| RunnerJobs.HandleAlwaysSettlesIff | internal/agent/runner.go:153-307 | knowing only the state, an undisturbed Handle leaves everything in a later Teardown's reach, however its outside calls end, exactly when it is refused, has no repository, meets no job, or meets a compose job of the same repository |
| RunnerJobs.HandleSettlesIff | internal/agent/runner.go:170-182 | the same for one given outcome of the outside calls |
| RunnerJobs.TeardownClears | internal/agent/runner.go:366-398 | a Teardown from there leaves nothing of the preview and touches no other |
| RunnerJobs.TeardownUndoesHandle | internal/agent/runner.go:366-398 | Handle, whatever happens in it, then Teardown restores the state, the compose projects exactly unless a `compose up` failed with something started |
| RunnerJobs.ProjectSettlesIff | internal/agent/runner.go:311-330 | exactly when an undisturbed Handle leaves a compose project that no job accounts for, or a compose job without one |
| RunnerJobs.FailedUpLeavesProject | internal/agent/runner.go:321-328 | a first build whose `compose up` fails half-way leaves a project no Teardown takes down |
| RunnerJobs.ProjectAlwaysSettlesIff | internal/agent/runner.go:311-330 | the states from which no outcome of the outside calls does |
| RunnerSerial.HandleIsARun | internal/agent/runner.go:153-307 | an undisturbed Handle is a run of one worker's steps |
| RunnerSerial.TeardownIsARun | internal/agent/runner.go:366-398 | an undisturbed Teardown is a run of one worker's steps |
| RunnerSerial.OverlapStrands | internal/agent/runner.go:377-392 | a rebuild inside a Teardown that found its job leaves a container and a worktree no later Teardown removes |
| RunnerSerial.TwoModesStrand | internal/agent/runner.go:255-288 | two overlapping successful Handle calls of one repository, one Dockerfile and one compose, leave a container no later Teardown removes |
| SecretText.ParseSecretsRaw | internal/hub/admin_ui_repo_secrets_parse.go:52-83 | the parser's line loop computes the specified map or the first bad line and its error |
| SecretLines.LineMeans | internal/hub/admin_ui_repo_secrets_parse.go:58-80 | by its characters, which line is skipped, which is an entry with which key and value, and which error a bad line has |
| SecretLines.ParseMeans | internal/hub/admin_ui_repo_secrets_parse.go:52-83 | the first bad line is reported by its number and error; otherwise each key has the value of its last line |
| SecretLines.LineEndsMean | internal/hub/admin_ui_repo_secrets_parse.go:52-56 | CR LF and a CR of its own become a newline, and nothing else changes |
| SecretLines.SpaceMeans | internal/hub/admin_ui_repo_secrets_parse.go:59 | what counts as space around a line or a key, by code point |
| SecretText.SecretsToRawText | internal/hub/admin_ui_repo_secrets_parse.go:26-38 | one line for each row, in order |
| SecretText.AcceptedIsClean | internal/hub/admin_ui_repo_secrets_parse.go:52-83 | whatever is accepted has valid keys and values without line breaks |
| SecretText.ParseOfPrint | internal/hub/admin_ui_repo_secrets_parse.go:26-83 | printed rows parse back to their map, with LF or CRLF line ends |
| SecretText.FormRoundTrip | internal/hub/admin_ui_repo_secrets_parse.go:26-83 | submitting the form unchanged saves the same secrets |
| Dotenv.WriteDotenv | internal/agent/dotenv.go:28-49 | a file exactly for a non-empty map, with one escaped line for each key in increasing order |
| SecretLines.EscapeMeans | internal/agent/dotenv.go:58-63 | every newline of a value becomes a backslash and an n, and every other character stays |
| Dotenv.DotenvIsDeterministic | internal/agent/dotenv.go:32-44 | the bytes do not depend on the order of the map |
| Dotenv.DotenvReadsBackIff | internal/agent/dotenv.go:28-63 | the file of any map reads back as the map with its newlines escaped exactly when every key is a valid name and no value holds a carriage return |
| Dotenv.DotenvKeepsValuesIff | internal/agent/dotenv.go:58-63 | the file of any map reads back as the very map exactly when every key is a valid name and no value holds a line break |
| Dotenv.NewlineIsLost | internal/agent/dotenv.go:58-63 | a value with a newline comes back as another value |
| Dotenv.SecretsSurvive | internal/agent/dotenv.go:28-63 | the file of a map the form accepted reads back as the form |
| SecretsPath.SaveThenBuild | internal/hub/dispatcher.go:124-160 | form, store, hydration and file in one statement: once saved, and if the secrets can be read, the build finds a file exactly when there are secrets, and the file reads back as the form |
| SecretStore.ApplySecretDiff | internal/hub/admin_ui_repo_secrets.go:213-270 | on success the stored set is the wanted one and the counts are those of the writes made; on failure every key holds its old or wanted value; other repositories never change |
| SecretStore.UpsertAll | internal/hub/admin_ui_repo_secrets.go:232-250 | writes exactly the new and the changed keys |
| SecretStore.DeleteStale | internal/hub/admin_ui_repo_secrets.go:252-260 | deletes exactly the keys no longer wanted, in any order |
| SecretStore.OldOrWanted | internal/hub/admin_ui_repo_secrets.go:242-259 | after a failure midway no key holds a third value |
| SecretStore.RepoSecretStore.List | internal/db/sqlite/repo_secret_store.go:44-65 | one repository's rows, each key once, in ascending order |
| TraefikProbe.WaitTraefikRouters | internal/agent/traefik_ready.go:49-82 | the sweeps follow each other request by request and pause by pause; they are at most timeout / 100 ms + 2 and end within timeout + 250 ms + one second for each name; enabled, the call succeeds exactly when one of them saw every router enabled |
| TraefikProbe.AllEnabled | internal/agent/traefik_ready.go:88-121 | true exactly when every name is enabled; makes exactly the requests up to the first that is not, and takes as long as they do |
| TraefikProbe.RequestsMean | internal/agent/traefik_ready.go:88-121 | a sweep ends with the first name not answered "enabled", or with the last one |
| TraefikProbe.DurationMeans | internal/agent/traefik_ready.go:88-121 | its clock goes on by what each request takes |
| TraefikProbe.ConsecutiveMeans | internal/agent/traefik_ready.go:49-82 | the first sweep starts at once, and each next one asks on from where the one before stopped, a pause after its end |
| TraefikProbe.PauseMeans | internal/agent/traefik_ready.go:80 | the pauses 100, 150, 225, 250, 250, ... ms and the earliest start of each sweep they give |

## Left out

- HTTP routing, HTML, the admin UI's forms, the CLI, logging and configuration: plumbing.
- Bcrypt, HMAC and Basic Auth: a webhook is taken as authenticated and a session as tied to its agent.
- SQLite itself, migrations and row decoding errors: SQL has its relational meaning, and a constraint violation rolls back. The raw insert of the seed-stale command is not a step.
- Docker, git and compose: each call succeeds or fails as a parameter says. Removing a worktree or a container and taking a project down are taken to succeed, and none vanishes by itself.
- JSON transport is taken as identity, and invalid UTF-8 is not modelled. A status report without a preview ID or status is rejected before the store and is not modelled.
- Lower-casing of repository names: they arrive normalised.
- Store.PreviewStore.UpdateStatus: any database failure other than the two constraints appears only as a failed call in `Hub`, `OneActive` and `SecretStore`.
- Store.PreviewStore.Upsert: an input that reuses a preview ID is always an error here; in the code the ID is a fresh random UUID.
- Dispatch.Dispatcher.OnReady: a send is only an attempt here and in `Hub`; when it fails the code logs it and leaves the row to the reconciler.
- Sweep.Tick: one clock reading serves the whole cycle.
- HubSafety.CallersAlways: agents send only the statuses the runner sends; a foreign client could send any text.
- OneActive.OneActiveAlways: the webhook handler is one step; `OneActiveHub.OneActiveInEveryRun` is the interleaved form.
- OneActiveExact.CarefulIff: that a careless step can be completed to a break is stated where the preview IDs of the events under way are new and distinct, as random IDs are; `AdhocExact.CarefulIff` likewise.
- RunnerSafety.SettledBetweenHandlers: the orderly condition is needed (`RunnerStrands.OrderlyIff`: without it some continuation breaks it). A repository's URL stands for its directory, so two URLs with one slug are not modelled.
- RunnerProjects.ProjectsSettledBetweenHandlers: runs start without projects; their pruning at start-up is left out.
- RunnerCounts.NeverMissing: RunningPreviewIDs is one step; the code reads jobs before building.
- RunnerJobs.Runner.Handle: the `.env` write, the router wait and the URLs do not change the shared state and are not repeated here; the READY that ends a Handle is left out.
- Sessions.InvAlways: ping timeouts, `closeAll` and cancelled contexts all appear as the end of a session.
- TraefikProbe.WaitTraefikRouters: sleeps are exact and computing takes no time; a context cancelled during a request appears as that request's error.
- Backoff, repository slugs, service labels, Traefik start-up and the view helpers: easy members.
