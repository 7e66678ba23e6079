# Verified models of the bridge, the Agent Teams and their restarts

This project models the stateful heart of the MetaBot bridge in Dafny and proves what it promises over
all inputs, all interleavings and all crashes. Each synchronous block between two `await`s of the original
is one atomic step, because the JavaScript event loop guarantees that. A protocol is a pure step function
with invariants over every run. The objects that update fields in place are classes, whose methods are
proved to take exactly those steps.

| file | what it models |
|---|---|
| `TurnProtocol.dfy`, `MessageBridge.dfy` | who owns a chat, its queue of at most 5, stops and the restart quiesce |
| `QuestionProtocol.dfy`, `QuestionDesk.dfy` | questions of the agent inside a turn and between turns |
| `SupervisorProtocol.dfy`, `SupervisorSafety.dfy`, `SupervisorBounds.dfy`, `TeamSupervisor.dfy` | the Agent Team supervisor over the team store: lanes, capacity, retries, stops, crash recovery |
| `GovernanceIds.dfy`, `GovernanceProtocol.dfy`, `GovernanceReconcile.dfy`, `GovernanceExtension.dfy` | governed instances in two databases, with a crash possible between any two writes |
| `AgentLeases.dfy` | leases of governed agents and their reaping |
| `VersionedRegistry.dfy`, `CanonicalJson.dfy`, `CanonicalJsonProofs.dfy` | append-only versioned templates and rule sets, and the canonical text their digests rest on |
| `RestartPlan.dfy`, `RestartPreparation.dfy`, `RestartRecovery.dfy` | the controlled restart: preparation on top of the bridge, and recovery replayed after crashes |
| `PeerAuth.dfy`, `PeerManager.dfy` | signed capabilities between bridges and the pruned replay table |
| `RateLimiter.dfy` | the pruned request limiter against the complete history of each address |
| `RunBudget.dfy`, `DeferredDelivery.dfy` | the budget of one run; activity held back while a chat is busy |
| `Common.dfy`, `Text.dfy` | small shared helpers |

`dafny verify dfyconfig.toml` checks everything.

## What does not hold, and exactly when it does

* `stopChatTask` leaves the queue behind: a queued message is stranded unless the queue is empty or a restart
  holds the chat (`StopChatTaskStrandsIff`, `StopChatTaskCanStrand`).
* A question can be answered after its task was stopped: the answer handler awaits the card update before it
  resolves, and timers are overwritten without being cleared (`ResolvesAfterStopIff`,
  `ResolvesAfterPromptStopIff`, `CanResolveAfterStop`).
* Reconciling twice adds the template tasks without an id again (`ReconcileTwice`, `RepairTwice`).
* Members whose keys the collation ties keep their order in the canonical text, so bodies of one meaning can
  get two versions (`CanonicalTextIff`, `KeyOrderIgnoredIff`, `RepublishAnswersOldVersion`).
* The id of a governed instance is the digest of `template:scope:key`, which two instances can share. Then the
  second can never be created, and the team made for it is deleted again (`IdsCollideIff`,
  `TemplatesCollideIff`, `CreationCanFail`, `TakenIdLeavesNothing`).
* Continuation keys of two bots can collide when a bot name contains a colon (`BotsCollideIff`).
* Activity can be held longer than `maxDeferralMs` when the coalescing delay is longer (`PromiseKeptIff`), and
  a failed delivery overwrites a newer entry (`OverwritesIff`).
* The wait of a 429 for a full window can be too short by the closed end of the window (`WindowWait`).
* Resolving an instance whose row is active answers it without repairing an upstream team that a crash left
  stopped; only a reconciliation does (`RetryReachesTheInstance`).
* A plan that was cancelled under the id of the restart itself is never completed, and its breadcrumb stays
  (`CancelledPlanKeepsBreadcrumb`).

## Model

| member | source | states |
|---|---|---|
| `TurnProtocol.EveryRunKeepsInv` | src/bridge/message-bridge.ts:754-792 | over every interleaving of all blocks: no chat is both starting and running, each map entry is the latest uncancelled turn, the queue holds at most 5, it is first in first out, and every offered message waits, was begun, was refused or was cleared, exactly once |
| `TurnProtocol.StepKeepsInv` | src/bridge/message-bridge.ts:2056-2070 | one block of any kind keeps all of that |
| `TurnProtocol.NeverStranded` | src/bridge/message-bridge.ts:2056-2070 | in every run in which `stopChatTask` only hits chats with an empty queue, a chat with queued messages is busy or held back by a restart |
| `TurnProtocol.StopChatTaskStrandsIff` | src/bridge/message-bridge.ts:847-851 | `stopChatTask` keeps that promise exactly when the queue is empty or a restart holds the chat |
| `TurnProtocol.StopChatTaskCanStrand` | src/bridge/message-bridge.ts:847-851 | a concrete run in which it strands a queued message |
| `TurnProtocol.HandOver` | src/bridge/message-bridge.ts:2492-2504 | when the owner of a chat ends, the oldest queued message gets the reservation in the same block, and nothing is refused |
| `TurnProtocol.LeavesQueueOnlyToRun` | src/bridge/message-bridge.ts:2056-2070 | over every block, a message that leaves the queue becomes the work of the turn that then owns the chat, or a stop command cleared the whole queue |
| `TurnProtocol.OwnershipMeans` | src/bridge/message-bridge.ts:754-792 | each map entry is the last turn of the chat, not cancelled, in the phase of that map, and conversely |
| `TurnProtocol.LateTurnIsHarmless` | src/bridge/message-bridge.ts:3377-3400 | whatever a turn that no longer owns the chat does changes its own phase and nothing else: no map entry, no queue, no other turn |
| `TurnProtocol.TurnsOnlyAge` | src/bridge/message-bridge.ts:871-909 | cancelled turns stay cancelled, ended turns stay ended, and no turn changes its work |
| `TurnProtocol.QuiescedChatsOnlyDrain` | src/bridge/message-bridge.ts:803-815 | from a quiesce on, over any run without a cancellation, a chat that is busy was busy before |
| `MessageBridge.Bridge.Holds` | src/bridge/message-bridge.ts:750-792 | the maps of the bridge satisfy all of these invariants for every chat at all times |
| `MessageBridge.Bridge.ReserveTaskStart` | src/bridge/message-bridge.ts:754-771 | a reservation is obtained exactly if the protocol grants one, as the newest task of that chat; other chats stay as they are |
| `MessageBridge.Bridge.StartQuery` | src/bridge/message-bridge.ts:2492-2504 | starts the turn or refuses the message, as the protocol has it |
| `MessageBridge.Bridge.ProcessQueue` | src/bridge/message-bridge.ts:2056-2070 | takes the protocol step of handing the oldest message over; touches no other chat |
| `MessageBridge.Bridge.Enqueue` | src/bridge/message-bridge.ts:2200-2233 | appends a message exactly while fewer than 5 wait |
| `MessageBridge.Bridge.StopTask` | src/bridge/message-bridge.ts:871-909 | cancels the starting task, or else the running one, and frees the chat |
| `MessageBridge.Bridge.ClearChatQueue` | src/bridge/message-bridge.ts:862-869 | drops all queued messages of the chat and counts them |
| `MessageBridge.Bridge.HandleMessage` | src/bridge/message-bridge.ts:2196-2265 | the last block of a message takes the protocol step for its chat and leaves all others alone |
| `MessageBridge.Bridge.FlushBatch` | src/bridge/message-bridge.ts:2467-2490 | the batch timer takes its protocol step |
| `MessageBridge.Bridge.HandlePassThroughCommand` | src/bridge/message-bridge.ts:2149-2168 | a passed-through command starts a turn exactly if the chat is idle |
| `MessageBridge.Bridge.StartApiTask` | src/bridge/message-bridge.ts:3200-3230 | an API task starts only with a reservation, which is then the chat's |
| `MessageBridge.Bridge.EndSetup` | src/bridge/message-bridge.ts:2753-2779 | registers the turn as running only while its reservation is still its own |
| `MessageBridge.Bridge.ReleaseTaskStart` | src/bridge/message-bridge.ts:773-777 | gives a reservation back, and passes the chat on, only if it is still its own |
| `MessageBridge.Bridge.FinishTask` | src/bridge/message-bridge.ts:3182-3197 | the final cleanup frees the chat and passes it on only if the task still owns it |
| `MessageBridge.Bridge.HandleStopCommand` | src/bridge/command-handler.ts:105-168 | `/stop` and `/reset` clear the queue, then stop the task |
| `MessageBridge.Bridge.StopChatTask` | src/bridge/message-bridge.ts:847-851 | stops a busy chat's task, takes nothing off the queue, and says whether there was one |
| `MessageBridge.Bridge.BeginRestartQuiesce` | src/bridge/message-bridge.ts:803-806 | holds every chat back at once |
| `MessageBridge.Bridge.CancelRestartQuiesce` | src/bridge/message-bridge.ts:808-815 | only the request that holds the chats can release them; then every idle chat with a queue goes on |
| `MessageBridge.Bridge.GetRestartTaskSnapshots` | src/bridge/message-bridge.ts:817-845 | lists each chat at work exactly once, and no other |
| `QuestionProtocol.EveryRunKeepsInv` | src/bridge/message-bridge.ts:2267-2464 | in every run of a turn each call is handed to the agent at most once, by reply or timeout, and then with an answer to every question text |
| `QuestionProtocol.FillAnswersAll` | src/bridge/message-bridge.ts:2426-2440 | a timeout answers every remaining question and keeps every answer that is not empty |
| `QuestionProtocol.FilledIsComplete` | src/bridge/message-bridge.ts:2426-2464 | a timed-out call is answered completely |
| `QuestionProtocol.ResolvesAfterStopIff` | src/bridge/message-bridge.ts:871-909 | a stopped turn can still answer the agent exactly if an answer was on its way at the stop, or a question was open and a timer was leaked or about to be armed |
| `QuestionProtocol.ResolvesAfterPromptStopIff` | src/bridge/message-bridge.ts:3182-3187 | if the stopped turn winds down before its question timer can fire, exactly if an answer was on its way, or a question was open and a timer leaked |
| `QuestionProtocol.ResolvesAfterEndIff` | src/bridge/message-bridge.ts:3182-3187 | after the final block of the turn, which clears the known timer, exactly in those two cases as well |
| `QuestionProtocol.CanResolveAfterStop` | src/bridge/message-bridge.ts:2360-2381 | a concrete run in which a call is answered after its task was stopped |
| `QuestionProtocol.QuietForever` | src/bridge/message-bridge.ts:871-909 | otherwise a stopped turn answers nothing, ever |
| `QuestionProtocol.EverySlotRunKeepsInv` | src/bridge/message-bridge.ts:1197-1346 | between turns each call is answered at most once and completely, never after it was superseded, cancelled or dropped |
| `QuestionProtocol.DroppedForGood` | src/bridge/message-bridge.ts:1088-1104 | a call that was superseded or cancelled is never answered, whatever comes later |
| `QuestionDesk.FillRemaining` | src/bridge/message-bridge.ts:1234-1239 | the loop gives the default answer to exactly the questions that have none |
| `QuestionDesk.TaskQuestions.SurfaceQuestion` | src/bridge/message-bridge.ts:2828-2855 | surfacing takes its protocol step: only a new call resets index and answers |
| `QuestionDesk.TaskQuestions.ArmTimer` | src/bridge/message-bridge.ts:2919-2925 | the last block of surfacing arms the timer, even if the task was stopped meanwhile |
| `QuestionDesk.TaskQuestions.HandleAnswer` | src/bridge/message-bridge.ts:2267-2366 | a typed answer advances the call or commits it and clears the slot in the same block |
| `QuestionDesk.TaskQuestions.ResolveCommitted` | src/bridge/message-bridge.ts:2381-2414 | the rest of the handler hands over that very resolution and brings up the next call |
| `QuestionDesk.TaskQuestions.AutoAnswerRemainingQuestions` | src/bridge/message-bridge.ts:2426-2464 | the timer commits and hands over in one block |
| `QuestionDesk.TaskQuestions.StopTask` | src/bridge/message-bridge.ts:871-909 | a stop clears the timer it knows of and closes the task |
| `QuestionDesk.TaskQuestions.FinishTurn` | src/bridge/message-bridge.ts:3182-3187 | the final block of the turn clears the timer it knows of |
| `QuestionDesk.BetweenTurnQuestions.BeginQuestion` | src/bridge/message-bridge.ts:1088-1104 | a newer question supersedes the pending one before its card is sent |
| `QuestionDesk.BetweenTurnQuestions.OpenQuestion` | src/bridge/message-bridge.ts:1162-1172 | the slot holds the new call from its first question |
| `QuestionDesk.BetweenTurnQuestions.TryHandleReply` | src/bridge/message-bridge.ts:1266-1346 | a reply is taken exactly if a question is pending; what it resolves is complete, and only with a live agent |
| `QuestionDesk.BetweenTurnQuestions.AutoAnswer` | src/bridge/message-bridge.ts:1226-1257 | a timeout resolves the pending call completely, if the agent is alive |
| `QuestionDesk.BetweenTurnQuestions.CancelPending` | src/bridge/message-bridge.ts:1197-1203 | a cancelled question is gone for good |
| `SupervisorSafety.EveryRunKeepsInv` | src/agent-teams/team-supervisor.ts:117-151 | over every run: lane keys are exclusive, every task in progress has a running run, and every running run is being executed unless a crash was not yet repaired by a start |
| `SupervisorSafety.StepKeepsInv` | src/agent-teams/team-supervisor.ts:245-430 | one block of any kind keeps that |
| `SupervisorSafety.StartRepairs` | src/agent-teams/team-supervisor.ts:157-195 | after a crash at any await boundary, a start leaves no running run and no task in progress, rewrites nothing else and revives no stopped agent |
| `SupervisorSafety.RecoverRunsKeeps` | src/agent-teams/team-supervisor.ts:157-195 | the recovery loop fails exactly the running runs, newest first, and requeues only their tasks |
| `SupervisorSafety.OneLiveExecution` | src/agent-teams/team-supervisor.ts:129-144 | at most one call executes a task at a time, even after a stop has put the task back to pending |
| `SupervisorSafety.LateRequeueIsHarmless` | src/agent-teams/team-supervisor.ts:352-356 | when a stopped run settles late, even after the supervisor was destroyed, no run of the task is running and no row changes |
| `SupervisorSafety.NoRunRevives` | src/agent-teams/team-supervisor.ts:90-115 | over any run of the supervisor no run returns to running, and none changes agent or task |
| `SupervisorSafety.ConcludeFrame` | src/agent-teams/team-supervisor.ts:352-429 | the end of a run rewrites that run, at most its own task and its agent's status |
| `SupervisorBounds.CapacityAlways` | src/agent-teams/team-supervisor.ts:197-243 | in every reachable state running runs stay within `maxParallelPerAgent` and, for governed teams, within both run quotas |
| `SupervisorBounds.RetriesAlways` | src/agent-teams/team-supervisor.ts:484-508 | without stops and restarts, each task's runs are its failed ones, plus one while it is in progress or done, and failures stay under the limits while it is pending |
| `SupervisorBounds.DispatchedAtMostLimitTimes` | src/agent-teams/team-supervisor.ts:360-396 | without stops, restarts or outside edits a task is dispatched at most `failedRunLimit` times |
| `SupervisorBounds.RequeueUsesUpTheLimit` | src/agent-teams/team-supervisor.ts:484-508 | each requeue of a task uses up exactly one of its remaining failures, and some remain |
| `SupervisorBounds.RejectionCreatesNoRun` | src/agent-teams/team-supervisor.ts:260-271 | a preflight rejection fails the task without creating a run |
| `TeamSupervisor.TeamStore.CreateRun` | src/agent-teams/team-store.ts:604-630 | appends one running run |
| `TeamSupervisor.TeamStore.UpdateRun` | src/agent-teams/team-store.ts:654-673 | rewrites the status and error of one run only |
| `TeamSupervisor.TeamStore.UpdateTask` | src/agent-teams/team-store.ts:523-550 | rewrites the status of one task, or nothing when there is none |
| `TeamSupervisor.Supervisor.Holds` | src/agent-teams/team-supervisor.ts:117-151 | the fields and rows satisfy the invariants and the bounds on running runs at all times, across restarts; and the bound on retries where nothing was disturbed |
| `TeamSupervisor.Supervisor.CheckQuota` | src/agent-teams/governance-extension.ts:1073-1083 | a run may start exactly while both run quotas leave room |
| `TeamSupervisor.Supervisor.StartLane` | src/agent-teams/team-supervisor.ts:245-300 | the synchronous start of a run takes its protocol step, for every verdict of the preflight |
| `TeamSupervisor.Supervisor.TryLane` | src/agent-teams/team-supervisor.ts:129-144 | a lane whose key is held is not started again |
| `TeamSupervisor.Supervisor.TickAgent` | src/agent-teams/team-supervisor.ts:197-243 | one agent's share of a tick: ready tasks up to the free slots, else its inbox |
| `TeamSupervisor.Supervisor.Tick` | src/agent-teams/team-supervisor.ts:117-151 | a whole tick over all agents that are not stopped |
| `TeamSupervisor.Supervisor.SettleFailedTask` | src/agent-teams/team-supervisor.ts:484-508 | a failure requeues or gives up the task by the two limits, counted over the stored runs |
| `TeamSupervisor.Supervisor.SettleRun` | src/agent-teams/team-supervisor.ts:352-429 | the continuation after the await, for every outcome and for a run stopped meanwhile |
| `TeamSupervisor.Supervisor.StopRun` | src/agent-teams/team-supervisor.ts:90-115 | stopping a run puts its task back and keeps its lane key; a run that is not there changes nothing |
| `TeamSupervisor.Supervisor.ReapAgent` | src/agent-teams/team-supervisor.ts:432-457 | a reaped agent is stopped together with all its running runs |
| `TeamSupervisor.Supervisor.Start` | src/agent-teams/team-supervisor.ts:64-78 | a start recovers stale runs exactly once |
| `GovernanceReconcile.EveryRunKeepsRegistered` | src/agent-teams/governance-extension.ts:1357-1367 | over any number of operations cut short anywhere, every instance keeps pinning a template that is there |
| `GovernanceReconcile.ReconcileRestoresAgreement` | src/agent-teams/governance-extension.ts:736-793 | after any such run a reconciliation leaves: active rows with active teams, stopped rows with stopped or absent teams, governance-named teams without a row stopped, all other teams and all rows untouched |
| `GovernanceReconcile.AgreementMeans` | src/agent-teams/governance-extension.ts:736-793 | that is, the governed teams that run are exactly those of the active rows |
| `GovernanceReconcile.SecondReportIsEmpty` | src/agent-teams/governance-extension.ts:736-793 | a second reconciliation reports nothing |
| `GovernanceReconcile.RepairTwice` | src/agent-teams/governance-extension.ts:1380-1390 | a second repair changes no agent and no task that is there, and adds nothing exactly if every template task has an id |
| `GovernanceReconcile.ReconcileTwice` | src/agent-teams/governance-extension.ts:736-793 | reconciling twice keeps every team, its activity, agents and tasks; the state is the same exactly if no active instance's template has a task without an id |
| `GovernanceReconcile.CrashIsAtomic` | src/agent-teams/governance-extension.ts:667-734 | once reconciled, an operation cut short anywhere happened wholly or not at all, for the rows and for which governed teams run |
| `GovernanceReconcile.CreationCanBeRetried` | src/agent-teams/governance-extension.ts:467-594 | a creation cut short anywhere and retried leaves exactly the state an undisturbed one leaves, whatever the request, and also when its id is taken |
| `GovernanceReconcile.RetryReachesTheInstance` | src/agent-teams/governance-extension.ts:438-594 | after any run of interrupted operations, resolving ends with an active row exactly if there was one, or the checks pass and no other row has the id; a row that was there keeps its pins, others are untouched; the team of an instance that is reached runs unless the row was active while the team was not |
| `GovernanceReconcile.CreationMakes` | src/agent-teams/governance-extension.ts:498-594 | all writes of a creation together: one row with the pins and one team with the template's members, or, when another row has the id, no row and no team |
| `GovernanceReconcile.TakenIdLeavesNothing` | src/agent-teams/governance-extension.ts:589-592 | a creation that passes the checks makes row and team exactly if no other row has the id |
| `GovernanceReconcile.IdTakenIff` | src/agent-teams/governance-extension.ts:498-498 | another row has the id exactly if one of the two keys shadows the other |
| `GovernanceReconcile.CreationCanFail` | src/agent-teams/governance-extension.ts:498-594 | with an instance of `ops` for the chat `chat:x`, the template `ops:chat` never gets one for the chat `x` |
| `GovernanceIds.IdsCollideIff` | src/agent-teams/governance-extension.ts:498-498 | two keys have one id text exactly if template and scope of one begin the template of the other and its scope key says the rest |
| `GovernanceIds.TemplatesCollideIff` | src/agent-teams/governance-extension.ts:498-498 | two templates can have instances with one id exactly if template and scope of one begin the name of the other |
| `GovernanceIds.TeamNamesDiffer` | src/agent-teams/governance-extension.ts:499-499 | the names of the teams tell all keys apart |
| `GovernanceReconcile.ReactivationMakes` | src/agent-teams/governance-extension.ts:687-712 | all writes of a reactivation together: the row and its team active, the team repaired |
| `GovernanceProtocol.MaxId` | src/agent-teams/team-store.ts:430-454 | the highest task id, which `createTask` counts on from; 0 without tasks |
| `GovernanceExtension.Extension.ResolveInstance` | src/agent-teams/governance-extension.ts:438-594 | performs exactly the writes of the operation, in that order; answers an instance exactly if there is an active one then; any other answer names a condition that holds, and leaves all rows |
| `GovernanceExtension.Extension.CreateInstance` | src/agent-teams/governance-extension.ts:470-594 | checks authority, template, limits, scope quota, rule sets and agent quota in turn, then creates |
| `GovernanceExtension.Extension.InsertRow` | src/agent-teams/governance-extension.ts:531-592 | inserts the row exactly if no other row has its id |
| `GovernanceExtension.Extension.ReactivateInstance` | src/agent-teams/governance-extension.ts:687-712 | upstream first, the row last; afterwards both are active |
| `GovernanceExtension.Extension.StopInstance` | src/agent-teams/governance-extension.ts:667-685 | upstream first, the row last; afterwards neither is active |
| `GovernanceExtension.Extension.DeleteInstance` | src/agent-teams/governance-extension.ts:714-734 | the row first, the team last; afterwards neither is there |
| `GovernanceExtension.Extension.UpsertTask` | src/agent-teams/team-store.ts:456-503 | with an id the row is written or updated, without one it is created after the highest id |
| `GovernanceExtension.Extension.RepairTemplateMembers` | src/agent-teams/governance-extension.ts:1380-1390 | one write for each member that is missing, agents before tasks |
| `GovernanceExtension.Extension.CreateUpstreamFromTemplate` | src/agent-teams/governance-extension.ts:1369-1378 | a leftover team goes first; then the new one gets all members |
| `GovernanceExtension.Extension.Reconcile` | src/agent-teams/governance-extension.ts:736-793 | for any order of rows and teams: every team is as reconciliation has it, and the report lists exactly what was repaired |
| `AgentLeases.EveryRunKeepsInv` | src/agent-teams/governance-extension.ts:814-1017 | in every reachable state each agent of an instance has at most one live lease, and live temporary leases stay within the quota |
| `AgentLeases.CreateKeeps` | src/agent-teams/governance-extension.ts:814-906 | creating an agent never trips the unique index, whatever leases are stale |
| `AgentLeases.RecycledOnce` | src/agent-teams/governance-extension.ts:1435-1449 | a recycled lease never changes again, over any run in which its instance is not deleted |
| `AgentLeases.NothingDueSurvives` | src/agent-teams/governance-extension.ts:943-1002 | reaping leaves no due lease live, touches no other lease, stops exactly the agents of due leases, and does nothing the second time |
| `AgentLeases.WhenDue` | src/agent-teams/governance-extension.ts:943-960 | a new temporary lease is due exactly from its time to live, or its idle time, on |
| `AgentLeases.LeaseTable.GetActiveLease` | src/agent-teams/governance-extension.ts:1407-1419 | finds the live lease of an agent if there is one |
| `AgentLeases.LeaseTable.CreateAgent` | src/agent-teams/governance-extension.ts:814-906 | takes its step, keeps all bounds, never violates the index, and creates only while `maxAgents` leaves room |
| `AgentLeases.LeaseTable.StopAgent` | src/agent-teams/governance-extension.ts:908-923 | stops a known agent and recycles its lease |
| `AgentLeases.LeaseTable.DeleteAgent` | src/agent-teams/governance-extension.ts:925-941 | drops the agent and recycles its lease |
| `AgentLeases.LeaseTable.TouchAgent` | src/agent-teams/governance-extension.ts:1004-1017 | moves the activity of a live lease forward only |
| `AgentLeases.LeaseTable.ReapExpired` | src/agent-teams/governance-extension.ts:943-1002 | recycles and reports exactly the due leases; none is due afterwards |
| `VersionedRegistry.EveryHistory` | src/agent-teams/governance-extension.ts:283-323 | over every history of publications the versions of a name are exactly 1..n in order with distinct digests, and stored rows never change |
| `VersionedRegistry.RepublishSameBody` | src/agent-teams/governance-extension.ts:283-305 | republishing the very same body, however much later, answers the old row and stores nothing |
| `VersionedRegistry.RepublishAnswersOldVersion` | src/agent-teams/governance-extension.ts:283-305 | however much later, another body is answered with the old row exactly if it means the same and has the keys that the collation ties in the same order; then nothing is stored |
| `VersionedRegistry.NewBodyGetsNextVersion` | src/agent-teams/governance-extension.ts:301-323 | a body that means something new gets the next version, whatever the collation |
| `VersionedRegistry.OneRowPerDigest` | src/agent-teams/governance-extension.ts:283-323 | a name has one row for each digest and each version |
| `VersionedRegistry.PinnedForEver` | src/agent-teams/governance-extension.ts:344-362 | a stored row is found by name and version for ever after |
| `VersionedRegistry.Registry.Holds` | src/agent-teams/governance-extension.ts:283-405 | at all times the table has versions 1..n with distinct digests, each the digest of its body |
| `VersionedRegistry.Registry.PublishBody` | src/agent-teams/governance-extension.ts:364-405 | answers and stores as the specification of a publication has it, and adds it to the history |
| `VersionedRegistry.Registry.Latest` | src/agent-teams/governance-extension.ts:344-362 | the loop computes the highest version of the name |
| `VersionedRegistry.Registry.FindByDigest` | src/agent-teams/governance-extension.ts:291-299 | the loop finds the first row with the name and digest |
| `CanonicalJsonProofs.CanonicalTextIff` | src/agent-teams/governance-extension.ts:1768-1777 | two JSON values have the same canonical text exactly if they mean the same and, wherever the collation ties two keys of an object, those keys were written in the same order |
| `CanonicalJsonProofs.CanonicalTextSeparatesValues` | src/agent-teams/governance-extension.ts:1768-1777 | values of different meaning have different texts, whatever the collation |
| `CanonicalJsonProofs.OrderIsIgnoredWithoutTies` | src/agent-teams/governance-extension.ts:1768-1777 | where the collation ties no two keys, the text is the same exactly if the meaning is, in any key order |
| `CanonicalJsonProofs.KeyOrderIgnoredIff` | src/agent-teams/governance-extension.ts:1768-1777 | swapping any two neighbours of an object, whatever stands before and after them and whatever their values, leaves the text the same exactly if the collation tells their keys apart |
| `CanonicalJsonProofs.PlainUnique` | src/agent-teams/governance-extension.ts:1768-1777 | a canonical text can be cut out of a longer text in one way only |
| `RestartPlan.KeysAreDistinct` | src/bridge/restart-coordinator.ts:589-591 | continuation keys tell participants apart when platforms and bot names have no colon |
| `RestartPlan.BotsCollideIff` | src/bridge/restart-coordinator.ts:589-591 | with colons, two bots of any platforms can share a key exactly if their full names are one text or one of them followed by a colon begins the other |
| `RestartPreparation.HeldChatsOnlyDrain` | src/bridge/message-bridge.ts:754-771 | a chat that was idle when it was held back, and never let go, is idle still |
| `RestartPreparation.AtWorkWasNoted` | src/bridge/restart-coordinator.ts:112-162 | every chat at work at any later time, while held back, was noted as active at the first look |
| `RestartPreparation.HeldFromTheStart` | src/bridge/restart-coordinator.ts:110-114 | right after the first look the conditions of the second are met |
| `RestartPreparation.CollectParticipants` | src/bridge/restart-coordinator.ts:407-443 | the active participants are exactly the chats at work, each once; the only other one is the requester, who takes part if its bot is there |
| `RestartPreparation.RefreshParticipants` | src/bridge/restart-coordinator.ts:445-466 | keeps participants and their order; active are exactly those at work now |
| `RestartPreparation.Begin` | src/bridge/restart-coordinator.ts:79-133 | says exactly which requests are refused, the form of the id included, which reuse a prepared plan, and that otherwise all chats are held back and those at work noted |
| `RestartPreparation.Finish` | src/bridge/restart-coordinator.ts:157-187 | the active participants of a plan that becomes prepared are exactly the chats then at work; a failed notice cancels it and lets all chats go unless forced |
| `RestartPreparation.QuiesceAll` | src/bridge/restart-coordinator.ts:110-111 | every bridge records the quiesce |
| `RestartPreparation.ReleaseQuiesceAll` | src/bridge/restart-coordinator.ts:472-474 | every bridge records the release |
| `RestartRecovery.EveryRunKeepsInv` | src/bridge/restart-coordinator.ts:249-389 | the invariants hold after every sequence of durable writes, crashes and startups |
| `RestartRecovery.AtMostOneContinuationEach` | src/bridge/restart-coordinator.ts:255-299 | over any number of crashes each participant gets at most one continuation, only if it needs one, and is marked recovered only with the one it needs |
| `RestartRecovery.CompletedMeansHandedOver` | src/bridge/restart-coordinator.ts:361-386 | the plan becomes completed only with every participant recovered; then exactly those that need a continuation have one |
| `RestartRecovery.RecoveredOnce` | src/bridge/restart-coordinator.ts:250-253 | a recovered participant keeps its time of recovery and all its results, over any run |
| `RestartRecovery.BreadcrumbIsKeptUntilDecided` | src/bridge/restart-recovery.ts:62-133 | the breadcrumb of a known request goes only after a decision, and with an own plan only after its completion |
| `RestartRecovery.CancelledPlanKeepsBreadcrumb` | src/bridge/restart-recovery.ts:115-123 | a plan cancelled under the id of the request keeps the breadcrumb for ever: nothing is decided in any run |
| `RestartRecovery.VerdictIsFinal` | src/runtime/restart-store.ts:187-220 | healthy and failed are final |
| `RestartRecovery.Startup.ScheduleTaskDurably` | src/scheduler/task-scheduler.ts:169-210 | persists a task unless one with its key is there, or throws and changes nothing |
| `RestartRecovery.Startup.CheckStartupHealth` | src/bridge/restart-recovery.ts:74-99 | takes the health step: claimed fails, restarting is decided, final stays |
| `RestartRecovery.Startup.RecoverParticipant` | src/bridge/restart-coordinator.ts:250-359 | handles one participant in its two writes; good answers recover it; others stay as they are |
| `RestartRecovery.Startup.RecoverParticipants` | src/bridge/restart-coordinator.ts:249-389 | the whole loop; good answers complete the plan |
| `RestartRecovery.Startup.DecideContinuation` | src/bridge/restart-recovery.ts:215-269 | decides exactly if the own plan is completed or the requester's task could be scheduled where one is needed |
| `RestartRecovery.Startup.FinalizeControlledRestart` | src/bridge/restart-recovery.ts:56-137 | a whole startup; with good answers the breadcrumb is gone unless the own plan was cancelled |
| `PeerManager.ForwardedTaskPassesIff` | src/api/peer-manager.ts:1314-1360 | a forwarded task passes the receiving checks, with the claims that were signed, exactly if names, key, clock, host, scopes, bot and issuer fit |
| `PeerManager.PassedWasSigned` | src/api/peer-manager.ts:827-865 | what passes was signed with a valid key of the issuer for this body, path and method, within its time |
| `PeerManager.ForwardedForm` | src/api/peer-manager.ts:1314-1360 | what a forwarded request always carries |
| `PeerManager.ClockAgrees` | src/api/peer-manager.ts:838-859 | key and clock checks pass exactly from 5 seconds before issue until expiry, with a current key |
| `PeerManager.ContentAgrees` | src/api/peer-manager.ts:885-909 | the body check passes exactly if the receiver runs the bot and the issuer needs no trimming |
| `PeerManager.BindingsAgree` | src/api/peer-manager.ts:860-883 | the binding checks pass exactly for the right name, host and scopes |
| `PeerManager.RetainedIsRecent` | src/api/peer-manager.ts:918-924 | what a pruned table holds was accepted less than 40 seconds ago |
| `PeerManager.AcceptIsSound` | src/api/peer-manager.ts:918-924 | no two accepted requests carry the same claims |
| `PeerManager.PruneRemembers` | src/api/peer-manager.ts:918-922 | the pruned table has a key exactly if an accepted request with it has not expired |
| `PeerManager.PeerTable.RecordNonce` | src/api/peer-manager.ts:918-924 | decides as a table that forgets nothing, and keeps only what has not expired |
| `PeerManager.PeerTable.VerifyInboundPeerRequest` | src/api/peer-manager.ts:827-925 | the answer is the checks' own unless an unexpired acceptance has the same replay key; exactly what passes is recorded |
| `RateLimiter.DecidesAsRemembered` | src/api/request-rate-limiter.ts:146-203 | on what the limiter keeps, every decision equals the one the complete history calls for, and it still keeps enough afterwards |
| `RateLimiter.SweptIsRepresented` | src/api/request-rate-limiter.ts:220-227 | an entry that a sweep drops is needed for no later decision |
| `RateLimiter.StaysRepresented` | src/api/request-rate-limiter.ts:135-140 | time alone makes nothing that was pruned count again |
| `RateLimiter.AtMostMaxInAnyWindow` | src/api/request-rate-limiter.ts:146-175 | at most `maxRequests` requests of an address are allowed in any window, both ends included |
| `RateLimiter.LockoutWait` | src/api/request-rate-limiter.ts:153-161 | the wait a lockout tells is enough, and a second less is not |
| `RateLimiter.WindowWait` | src/api/request-rate-limiter.ts:163-174 | the wait a full window tells is enough except exactly if the window is whole seconds and as many requests fell on the denied millisecond as are allowed |
| `RateLimiter.RequestRateLimiter.Check` | src/api/request-rate-limiter.ts:146-175 | an address whose entry was never evicted gets the answer of its full history; evictions happen only when the table is full |
| `RateLimiter.RequestRateLimiter.AtMostMaxLetThrough` | src/api/request-rate-limiter.ts:146-175 | of an address whose entry was never evicted the object itself lets at most `maxRequests` requests through in any window, both ends included |
| `RateLimiter.RequestRateLimiter.RecordAuthFailure` | src/api/request-rate-limiter.ts:182-203 | the same for failed authentication |
| `RateLimiter.RequestRateLimiter.RecordAuthSuccess` | src/api/request-rate-limiter.ts:210-217 | the same for successful authentication; nothing is evicted |
| `RateLimiter.RequestRateLimiter.Sweep` | src/api/request-rate-limiter.ts:220-227 | drops exactly the idle, unlocked entries and no decision with them |
| `RateLimiter.RequestRateLimiter.Prune` | src/api/request-rate-limiter.ts:135-140 | the loop drops exactly the leading times before the cutoff |
| `RateLimiter.RequestRateLimiter.EnforceCap` | src/api/request-rate-limiter.ts:121-133 | evicts at most one entry, an oldest other than the new one and never the empty address, and only above the cap |
| `RateLimiter.RequestRateLimiter.GetOrCreate` | src/api/request-rate-limiter.ts:110-118 | the table stays within the cap for addresses that are not empty |
| `RunBudget.TerminalIffExhaustedOnce` | src/agent-teams/run-budget.ts:35-57 | the budget is terminal exactly if after some output the last texts were all equal or some denial had occurred often enough |
| `RunBudget.VerdictStays` | src/agent-teams/run-budget.ts:36-36 | once terminal, the reason never changes |
| `RunBudget.RepeatedMeans` | src/agent-teams/run-budget.ts:40-48 | the counter reaches a limit exactly if that many last texts are equal |
| `RunBudget.OnlyTheLastCanBeNew` | src/agent-teams/run-budget.ts:49-55 | only the text that came last can newly have been denied too often |
| `RunBudget.AgentTeamRunBudget.Observe` | src/agent-teams/run-budget.ts:35-57 | after every output the answer is the verdict of the whole history |
| `RunBudget.AgentTeamRunBudget.CountText` | src/agent-teams/run-budget.ts:40-56 | the counters decide exhaustion, repeated output before denials |
| `Text.TrimCutsSpaceOnly` | src/agent-teams/run-budget.ts:37-38 | trimming cuts off white space at both ends, all of it, and keeps everything between |
| `DeferredDelivery.AlwaysInTime` | src/bridge/deferred-activity-delivery.ts:92-139 | with timers on time, a queued entry has its timer armed at or before its deadline, and everything handed over was so by then, whatever the chat answers |
| `DeferredDelivery.TimeNeverStops` | src/bridge/deferred-activity-delivery.ts:92-139 | from every state of every run, timers that fire lead to every later time: the runs are not cut short |
| `DeferredDelivery.FiringUsesUpTheDue` | src/bridge/deferred-activity-delivery.ts:126-139 | whichever due timer fires, and whatever the chat answers, fewer are due afterwards |
| `DeferredDelivery.PromiseKeptIff` | src/bridge/deferred-activity-delivery.ts:49-139 | the bound `firstQueuedAt + maxDeferralMs` holds in every run exactly if the coalescing delay is no longer than `maxDeferralMs` |
| `DeferredDelivery.DeferralsAreBounded` | src/bridge/deferred-activity-delivery.ts:126-139 | as long as nothing was overwritten an entry is deferred at most once more than the shortest delay fits into the window |
| `DeferredDelivery.DelayIsPositive` | src/bridge/deferred-activity-delivery.ts:126-130 | a delay is at least the shortest, or the rest of the window, and never longer than the rest |
| `DeferredDelivery.AlwaysTidy` | src/bridge/deferred-activity-delivery.ts:64-70 | the bodies of every entry are distinct, at most `maxItems`, and the latest it took; kept plus omitted is accepted |
| `DeferredDelivery.KeptPlusOmittedIsAccepted` | src/bridge/deferred-activity-delivery.ts:49-124 | over any run, all accepted bodies are accounted for by entries that wait, fly, were delivered, given up or overwritten |
| `DeferredDelivery.OverwritesIff` | src/bridge/deferred-activity-delivery.ts:113-121 | a step loses a queued entry exactly if a delivery fails within its window while a newer entry waits |
| `DeferredDelivery.OverwriteCanHappen` | src/bridge/deferred-activity-delivery.ts:113-121 | a concrete run in which that happens |
| `DeferredDelivery.DeferredActivityDelivery.EnqueueBody` | src/bridge/deferred-activity-delivery.ts:49-83 | the chat's entry and what is handed over are as specified; other chats keep theirs |
| `DeferredDelivery.DeferredActivityDelivery.FlushChat` | src/bridge/deferred-activity-delivery.ts:92-105 | the same for a flush |
| `DeferredDelivery.DeferredActivityDelivery.TimerFired` | src/bridge/deferred-activity-delivery.ts:130-134 | a timer of the entry, or one an overwritten entry left behind, flushes the chat |
| `DeferredDelivery.DeferredActivityDelivery.Holds` | src/bridge/deferred-activity-delivery.ts:49-139 | of every chat of the object: its entry is in time and tidy, and all accepted bodies are accounted for |
| `DeferredDelivery.DeferredActivityDelivery.DeferEntry` | src/bridge/deferred-activity-delivery.ts:126-139 | the doubling loop computes the capped exponential delay |
| `DeferredDelivery.DeferredActivityDelivery.DeliveryFailed` | src/bridge/deferred-activity-delivery.ts:113-124 | a failed delivery requeues the entry within its window, over whatever waits there |

## Left out

* Network, SQLite, files, PM2, child processes, HTTP routing, chat cards, speech: only their answers appear, as parameters.
* Object identity: a task object is its index in the chat's list of tasks, a run its index in the store.
* Digests, HMAC and base64: injective, so the text, or the signed claims, stand for them. Shortened digests in instance ids and team names are taken as injective as well, so `TEAM_NAME_COLLISION` cannot arise; what is digested for an id is not injective, and modelled.
* Crashes inside a synchronous supervisor block, between the write of a run and the write of its task: the code does not recover that.
* Agent CLI edits of tasks and the deletion of a team while it runs; tasks that no agent owns.
* Turns without a reservation: background tasks, continuation cards, silent commands. Codex goal continuation.
* The early return of `handleMessage` while a restart is prepared: `HandleMessage` is its last block, which messages past that check still reach.
* Media detection and batching texts: a message is a list of ids, and whether it is media is a parameter.
* Idle digests, lead notifications, session handling, prompt and card texts, run output merging.
* `Supervisor.Tick`: does not model that building a rules context can throw after the run was created.
* `Extension.ResolveInstance`: is given the actor's authority, the merged limits, and whether the rule sets can be pinned; it does not merge quotas or look rule sets up. The scope key is given resolved.
* `LeaseTable.CreateAgent`: does not model authority or names that are refused; the names of a template's agents are a set.
* Rule-set matching, audit rows, `maxTeamsPerScope` and `maxAgents` as invariants over runs: reactivation and template repair do not check them.
* `Text.Lower`: does not model letters beyond ASCII, which hosts and methods do not have.
* `PeerTable.VerifyInboundPeerRequest`: does not model peers or bots that change while it is in use; routing of a path and the encoded length of claims are parameters.
* The relay inbox, peer polling, `cidrContains` and registry discovery.
* `RestartRecovery.Startup.FinalizeControlledRestart`: does not model a cancellation of the plan or a new restart while it runs.
* `cancelControlledRestart` and the preparation lease timer: both release the quiesce, which `ReleaseQuiesceAll` covers.
* `RestartPreparation.Begin`: does not model two bots that share one bridge.
* The scheduler beyond its promise to keep at most one task for a key; cancelled tasks; the restart store beyond the statuses and the decision.
* `Startup.CheckStartupHealth`: does not model the probes; their verdict is a parameter.
* `QuestionProtocol.EveryRunKeepsInv`: does not model the PTY backend, which brings up questions on the other path, nor API tasks, which answer by callback.
* The limiter's environment variables and `resolveClientIp`; `src/api/budget-manager.ts`, whose rollover always records yesterday's date; `src/bridge/rate-limiter.ts`, where an older pending update stays armed.
* `DeferredActivityDelivery.EnqueueBody`: does not trim; it is given the trimmed body. `destroy` is left out.
* `RequestRateLimiter.AtMostMaxLetThrough`: does not cover addresses whose entry was evicted from the full table, because the code then starts them afresh.
* Config parsing, model and effort commands, intent routing, the circuit breaker.
