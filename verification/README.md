# TeamFlow delivery model

A Dafny model of the part of TeamFlow that must not go wrong when processes crash, clocks run and
Codex answers late: the task delivery protocol, the event log and routing that feed it, the
workflow engine with its delivery gate, tool admission, and three self-contained algorithms: the
reverse reader of rollout files, the prompt template scanner and the migration ledger guard.

## How it is organised

- **Delivery protocol.** `DeliveryRows` has the delivery and execution tables and every SQL transaction as a
  function. `DeliveryStore` is the same store as a class updated in place, each method proved equal to its
  function; only the methods with a loop or a rollback have a row below. `DeliveryClaims` is the claim loop. `DeliverySystem` is the protocol as a state machine: the
  database, the Codex peer, the executing workers, the reconciliation pass, crash and restart. Every read a
  thread makes of the board, of executions or of a rollout is an argument of its step, so a run covers every
  answer. `DeliveryInvariant` and the `...Steps` modules prove the invariant; `DeliverySafety`,
  `DeliveryLedger`, `DeliveryOwnership`, `DeliveryBatch`, `DeliveryActions`, `DeliveryStatuses` and
  `DeliveryTurns` state what follows over runs, and so what the single transactions are good for;
  `DeliveryLimits` and `DeliveryTwins` show where the two hypotheses are needed and exactly when they fail, and
  `DeliveryWitness` has a run within them and one that leaves them once. `DeliveryRuntime` has the driver's
  bookkeeping and how the flags of an execution choose its last write.
- **Events and routing.** `TaskEvents`, `TaskRouting`, `TaskPlanner`, and `TaskRuns` with their interleavings.
- **Workflow.** `StateGraph`, `TaskFields`, `WorkflowDefinition`, `WorkflowActions`, `GitFacts`,
  `DeliveryFacts`, `TaskTools`, `TaskExecution`.
- **Tool admission.** `ToolRuntime`, and `ToolWitness` with the exact limits of its two promises.
- **Algorithms.** `RolloutReader`, `PromptTemplate`, `SchemaGuard`.

## What the peer and the storage guarantee

- A client message id belongs to at most one Codex turn, and a turn to at most one message id.
- A recorded completion, and a turn reported completed, successful or failed, is over. An interrupted
  snapshot alone is not evidence.
- A failed call before the turn started, other than an unknown acceptance, means nothing was accepted;
  missing permission and a missing owner are reported only before a turn starts.
- Each database block is one atomic transaction that rolls back on an exception. Fresh message ids and
  grant tokens are unused. JSON encodings and hashes are injective.
- Ancestry answers of git are those of one history; where a lemma uses that they are reflexive and
  transitive it says so.

The run theorems of the delivery protocol have two hypotheses, stated as `Granted`: a batch is claimed while
no two claimable rows share event and agent, and recording a started turn does not raise because a
continuation lost its execution meanwhile. Both fail of the code in general. `DeliveryLimits` proves exactly
when a claim returns its row and exactly when recording raises, and what happens otherwise; `DeliveryTwins` and
`DeliveryWitness` have the runs that lead there.

The two promises of tool admission, a cached call runs once and a sealed turn stays closed, hold of the code
exactly between calls that lock the same thing; `ToolWitness` proves both directions for all pairs of calls.

## Model

| member | source | states |
|---|---|---|
| DeliverySafety.EveryDeliverySafe | core/delivery_runtime.py:423-554 | over every run of claims, executions, crashes, restarts and reconciliations: only the row's own message can still be running or start; a pending, retry or waiting row, and a failed row that recovery may pick up, has nothing outstanding; a claimed row has a message id, and once in progress its recorded turn is that message's turn and is in the ledger |
| DeliverySafety.AtMostOneLiveTurn | core/delivery_runtime.py:1046-1208 | each delivery has at most one running Codex turn in every reachable state |
| DeliverySafety.SessionsStayExclusive | core/task_delivery_store.py:150-159 | no two claimed deliveries share a session in any reachable state |
| DeliverySafety.OneActiveExecutionPerRecord | core/task_delivery_execution.py:62-71 | two claimed deliveries of one record cannot both own its active execution |
| DeliverySafety.RestartKeepsClaims | core/task_delivery_store.py:28-47 | a restart never sends a claimed delivery back to pending; it changes only the next attempt and makes it due |
| DeliverySafety.StepKeepsInv | core/delivery_runtime.py:256-592 | every step of the environment, the scheduler, an execution or a reconciliation keeps the protocol invariant |
| DeliverySteps.WorldKeepsInv | core/task_delivery_store.py:50-133 | planner, registration, tool, peer, crash, restart and failed-row recovery steps keep the invariant |
| DeliverySteps.RecoverIsCalm | core/task_delivery_store.py:28-47 | recovery after a restart leaves status, session, message and turn of every row alone |
| DeliveryWorkerSteps.WorkKeepsInv | core/delivery_runtime.py:256-592 | every step of an executing delivery keeps the invariant, whatever the reads between its writes return |
| DeliveryWorkerSteps.LoseContinuationKeeps | core/delivery_runtime.py:354-364 | the cancellation an execution attempts with its stale copy never hits; the row is deferred |
| DeliveryWorkerSteps.DecisionOk | core/delivery_runtime.py:454-501 | a returned turn is retried only when it is over and recorded |
| DeliveryReconcileSteps.ReconcileKeepsInv | core/delivery_runtime.py:671-1239 | every step of a reconciliation pass over stale copies keeps the invariant |
| DeliveryReconcileSteps.JudgedIsSettled | core/delivery_runtime.py:1070-1210 | a turn judged over from its copy settles the row even if the row changed since |
| DeliveryReconcileSteps.ResetUnconfirmedKeeps | core/delivery_runtime.py:1480-1501 | dropping the message id after the lease leaves no message that could still run |
| DeliveryScheduleSteps.ScheduleKeepsInv | core/delivery_runtime.py:236-254 | claiming a batch and starting its workers keeps the invariant when no two claimable rows share event and agent |
| DeliveryOwnership.UnclaimedTurnsAreCapped | core/delivery_runtime.py:470-478 | over every run a delivery none of whose recorded turns ever owns its record's active execution, and that never completes with failed MCP calls, records at most three turns, and fewer wherever it may be submitted again; the reads that report ownership are true of the tables at that step or before |
| DeliveryOwnership.ExemptHasCause | core/delivery_runtime.py:594-613 | the cap stops governing a delivery only after a step was told that a turn of it owns the active execution, or that its turn completed with failed MCP calls |
| DeliveryLedger.StepKeepsLedger | core/delivery_runtime.py:1194-1208 | every step keeps room in the ledger wherever one more turn can still be recorded |
| DeliveryActions.StepIsOrderly | core/task_delivery_execution.py:117-134 | every protocol step, hypotheses or not, keeps each delivery's identity and ledger, adds to a ledger at most the turn its delivery then runs, and changes an execution only together with the delivery that owns it at its recorded turn: both end, or both move to the new turn |
| DeliveryActions.MessageReplaced | core/task_delivery_store.py:290-322 | a message id is replaced only by a claim of a row without one or with a recorded turn, by a fresh id, or dropped by the lease reset of a row without a turn |
| DeliveryStatuses.StatusMoves | core/task_delivery_store.py:344-487 | over every run a status changes only along the protocol's moves: only a claim makes a delivery processing, only its own worker ends or parks it, only the reconciliation visiting it settles it, and apart from that reconciliation a wait or a failure is lifted only by a resumption, a recovery or the agent leaving |
| DeliveryStatuses.NeverPendingAgain | core/task_delivery_store.py:28-47 | a delivery that left pending never returns to it, through crashes and restarts as well |
| DeliveryTurns.LedgerIsIssued | core/task_delivery_store.py:584-602 | over every run each turn in a delivery's ledger is the turn of a message that was issued for that delivery |
| DeliveryTurns.LedgersAreDisjoint | core/task_delivery_store.py:594-601 | no turn is in the ledgers of two deliveries |
| DeliveryTurns.LateStopRevokesNothing | core/task_delivery_execution.py:137-174 | over every run: once a record's execution left a past turn of its delivery, a stop aimed at that turn revokes nothing at any later time, whichever transaction carries it, unless a tool call of that very turn claimed the record again |
| DeliveryActions.RebindMovesBoth | core/task_delivery_store.py:563-601 | a rebinding start commits exactly when the row and the active execution are at the previous turn, and then moves both |
| DeliveryBatch.BatchSessionsFree | core/task_delivery_store.py:269-340 | for every table, a batch returns at most the limit, on sessions that are pairwise distinct, not excluded and not in use |
| DeliveryBatch.BatchFates | core/task_delivery_store.py:193-340 | without twins a batch keeps, cancels or claims each selected row on its own, touches no other row and no execution, and returns exactly the rows it claimed, with stale copies |
| DeliveryLimits.ReturnedIffAlone | core/task_delivery_store.py:290-322 | a selected, needed and free row is returned exactly when no other due claimable row has its event and agent |
| DeliveryLimits.TwinsAreClaimedTogether | core/task_delivery_store.py:290-322 | otherwise the rows become processing together under one message id and none gets a worker |
| DeliveryTwins.ReplacementLeavesTwins | core/db.py:844-853 | for every event, agent, record and pair of sessions: from the initial state a run within the hypotheses, in which a session is replaced while a row waits for permission, reaches two claimable rows of one event and agent |
| DeliveryTwins.TwinsShareSession | core/task_delivery_store.py:290-322 | one more claim of that table puts two claimed deliveries on one session, so session exclusion needs the hypothesis |
| DeliveryLimits.StartRaisesIffRaced | core/task_delivery_store.py:554-602 | recording a started turn raises exactly when a continuation no longer owns its execution |
| DeliveryLimits.RacedStartIsRetried | core/delivery_runtime.py:496-554 | from every state in which a continuation's running turn cannot be recorded, the worker's next writes leave the delivery to be retried while that turn runs, and the retry will carry another message id |
| DeliveryLimits.RacedStateExists | core/delivery_runtime.py:503-532 | such a state satisfies the invariant, so the hypothesis is needed |
| DeliveryWitness.LiveTurnIsReachable | core/delivery_runtime.py:256-592 | the hypotheses can be met: a granted run reaches a running turn that its delivery has recorded |
| DeliveryWitness.RacedRunHasTwoLiveTurns | core/delivery_runtime.py:503-532 | a concrete run in which one start raises and nothing else departs from the hypotheses ends with two running turns of one delivery |
| DeliveryStore.Store.ClaimTaskDeliveries | core/task_delivery_store.py:136-340 | the claim loop in place equals the batch function: same table, same returned items, early stop at the limit |
| DeliveryStore.Store.RecoverRetryableFailed | core/task_delivery_store.py:50-133 | the recovery loop over failed rows equals its specification |
| DeliveryStore.Store.RecoverTaskDeliveries | core/task_delivery_store.py:28-47 | the two restart updates equal the one-pass specification |
| DeliveryStore.Store.MarkTurnStarted | core/task_delivery_store.py:554-602 | rebind, row and ledger entry commit together or the whole transaction rolls back |
| DeliveryRuntime.Runtime.Schedule | core/delivery_runtime.py:236-254 | claims with the active sessions reserved and starts one worker per returned delivery, exactly as the protocol step |
| DeliveryRuntime.Runtime.Conclude | core/delivery_runtime.py:454-554 | the flags of an execution select exactly the protocol's last writes |
| TaskEvents.EventStore.SaveTaskSnapshot | core/lark_events.py:246-347 | saving a snapshot in place equals its specification and returns exactly the event types it inserted |
| TaskEvents.SaveAppends | core/lark_events.py:277-315 | a change without a key collision appends exactly its events |
| TaskEvents.SaveAppendsKept | core/lark_events.py:277-315 | every change appends exactly those of its events whose key is new, in order |
| TaskEvents.SaveKeepsUnique | core/lark_events.py:290-293 | event keys stay unique whatever arrives |
| TaskEvents.FreshRevisionCannotCollide | core/lark_events.py:284-293 | a revision no event of the record carries cannot collide |
| TaskEvents.ArrivalsConverge | core/lark_events.py:260-280 | any arrival order of snapshots with distinct integer revisions ends with the highest revision and its snapshot |
| TaskEvents.OrderDoesNotMatter | core/lark_events.py:260-280 | two orders of the same arrivals end in the same snapshot and revision |
| TaskEvents.ReplayIsSilent | core/lark_events.py:260-280 | replaying any saved arrival emits no event and changes neither snapshot nor revision |
| TaskEvents.RevisionCanFall | core/lark_events.py:448-452 | new content is refused exactly when both revisions are integers and the new one is lower |
| TaskEvents.ErasedRevisionAcceptsOlder | core/lark_events.py:321-347 | after a change without a revision an older integer revision is accepted |
| TaskRouting.DispatchMeaning | core/task_routing.py:156-173 | the state an event dispatches for is the only one whose test it passes, whatever the states are called |
| TaskRouting.DispatchEventState | core/task_routing.py:156-173 | the loop in declaration order finds that state |
| TaskRouting.FindCurrentDispatch | core/task_routing.py:176-223 | the newest-first scan of the candidates finds the newest event that dispatches for the live state |
| TaskRouting.CurrentTriggerIsTrue | core/task_routing.py:176-223 | for every log in which each snapshot that needed a trigger got it, which includes every log without a collision: a record in a dispatching state has a trigger, later events of the record keep its status and, where it is the target, its role, and the trigger's target is the live one |
| TaskRouting.CollisionFreeKeepsTriggers | core/lark_events.py:284-293 | a log without a key collision is such a log |
| TaskRouting.TriggerSurvivesIffKept | core/lark_events.py:284-293 | the exact condition of one save: the record then has a true trigger if and only if the change needed none or the key of its trigger was new |
| TaskRouting.FirstCollisionMatters | core/lark_events.py:290-293 | the first collision of a log costs its record the trigger exactly when the dropped event was the trigger it needed |
| TaskRouting.SaveKeepsTriggers | core/lark_events.py:418-437 | a snapshot that gets the trigger it needs keeps every record's trigger true |
| TaskRouting.CollisionHidesTrigger | core/lark_events.py:290-293 | for any record and any two snapshots in different dispatching states: going there and back without revisions loses the second entry, and the trigger found lies before events that left the state |
| TaskPlanner.Planner.PrepareTaskDeliveries | core/task_delivery_planner.py:22-212 | the routing loop equals the pass, and its counters add up to the selection and to the inserted rows |
| TaskPlanner.Planner.PrepareAgentCatchup | core/task_delivery_planner.py:215-308 | the catch-up loop equals its specification and counts the inserted rows |
| TaskPlanner.PendingAfterPass | core/task_delivery_planner.py:72-160 | after a pass exactly the pending current triggers whose target role has no agent are still pending |
| TaskPlanner.OnePendingPerRecord | core/task_delivery_planner.py:72-160 | a record has at most one pending event after a pass |
| TaskPlanner.DeliveriesAreCurrent | core/task_routing.py:255-279 | rows are inserted only for current triggers and only for agents of the live target role |
| TaskPlanner.SecondPassIsIdle | core/task_delivery_planner.py:45-205 | a second pass over the same board changes nothing |
| TaskPlanner.CatchUpEventIsCurrent | core/task_delivery_planner.py:240-259 | with a monotone clock the catch-up serves the current trigger exactly when that is an entry of the state |
| TaskPlanner.CatchUpIsComplete | core/task_delivery_planner.py:240-308 | then every agent of the target role has a row for it |
| TaskRuns.LeavesPendingOnce | core/task_routing.py:226-240 | over every run of arriving snapshots, routing passes and catch-ups an event leaves pending at most once, and only in a routing pass |
| TaskRuns.RoutedForGood | core/task_routing.py:226-240 | over such runs no event is forgotten or rewritten, one that left pending never changes again, and no delivery is forgotten |
| TaskRuns.PendingAfterEveryPass | core/task_delivery_planner.py:72-160 | in every run, what is pending right after a routing pass is exactly what was pending, current and without an agent of its target role |
| TaskRuns.SnapshotsConverge | core/lark_events.py:260-280 | a record whose snapshots arrive with distinct integer revisions, in any order and interleaved with anything else on the board, ends with the highest revision and its snapshot |
| StateGraph.ReachableStates | core/workflow_validation.py:606-619 | the worklist ends with exactly the states that some root reaches by a path |
| StateGraph.ValidateStateGraph | core/workflow_validation.py:584-603 | accepts exactly when every state is reachable from the initial one and every open state has a path to a terminal one; each refusal names exactly the offending states |
| StateGraph.ReachesBack | core/workflow_validation.py:594-597 | reaching along the reversed edges is being reached |
| WorkflowDefinition.CollectEdges | core/workflow_validation.py:576-582 | the nested loops collect exactly the moves of the rules |
| WorkflowDefinition.Validate | core/workflow_validation.py:242-340 | accepts a lifecycle exactly when its states, actions and rules are well formed and its graph is |
| WorkflowActions.BuildPatch | core/workflow_rule_validation.py:183-201 | the patch built in place equals the patch function |
| WorkflowActions.PatchIsConfined | core/workflow_rule_validation.py:183-201 | no patch of a validated rule writes the task id or a delivery fact, and only a transition writes the status |
| WorkflowActions.AcceptedRule | core/workflow_lifecycle.py:52-238 | an accepted action names a rule of its action; it writes nothing or leads from the task's status |
| WorkflowActions.AcceptedWrite | core/workflow_lifecycle.py:106-238 | every accepted write leaves a declared state reached along an edge, never from a terminal one, with the required fields present |
| WorkflowActions.CreatedTask | core/workflow_lifecycle.py:19-49 | a created task is in the initial state, has its required fields and no delivery facts |
| WorkflowActions.RetryIsApplied | core/workflow_rule_validation.py:153-180 | repeating a call whose transition was written finds it applied and writes nothing, if the caller is still an actor of the rule |
| GitFacts.FastForwardedTo | core/git_facts.py:79-100 | true exactly when the newest reflog entry on the target has a predecessor and every update from there to the tip is a fast-forward |
| GitFacts.NewestDecides | core/git_facts.py:91-100 | an older entry on the target never matters |
| GitFacts.PromotedIsContained | core/git_facts.py:91-100 | a promoted target is an ancestor of the tip |
| DeliveryFacts.ModeIsLocked | core/delivery.py:163-208 | a mode that is set changes exactly on a request for the other mode, in the initial state, that the workspace can serve |
| DeliveryFacts.CarriedForwardHasMode | core/delivery.py:197-208 | whatever carries a task forward leaves it with a readable mode |
| DeliveryFacts.ResourcesOnlyGrow | core/delivery.py:134-142 | appending keeps every declared resource in place and the stored text reads back as the same lists |
| DeliveryFacts.AppendHolds | core/delivery.py:134-142 | exactly the old and the new declarations are there |
| DeliveryFacts.AppendKind | core/delivery.py:134-142 | the append loop equals its specification |
| DeliveryFacts.BaselinePins | core/delivery.py:237-248 | a claim pins branch and commit once, neither blank, and never again |
| DeliveryFacts.RepositoryFailures | core/delivery.py:290-389 | the checks report nothing exactly when every condition of the gate holds |
| DeliveryFacts.CompletionFailures | core/delivery.py:265-398 | a completion state is entered exactly through the gate that the task's mode demands |
| DeliveryFacts.GateMeaning | core/delivery.py:290-389 | an open gate means one commit, built on the baseline, verified, promoted, contained in the branch and never rolled back onto |
| TaskTools.ExecuteKeeps | core/teamflow_tools.py:498-612 | what one accepted call keeps: lifecycle, required fields, mode lock, growing declarations, pinned baseline, completion gate |
| TaskTools.RunStep | core/teamflow_tools.py:498-612 | the same for every accepted call of every run of a validated definition |
| TaskTools.FinalForGood | core/teamflow_tools.py:498-612 | over a run a terminal state is final and the task id and a pinned baseline never change |
| TaskTools.DeclarationsStay | core/delivery.py:134-142 | over a run whatever was declared stays declared, in order |
| TaskTools.DeliveryPatchOk | core/teamflow_tools.py:667-705 | the delivery half of a call adds only non-blank delivery facts, respecting lock, history and baseline |
| TaskTools.CreateStartsARun | core/teamflow_tools.py:272-336 | a created card starts such a run |
| TaskExecution.LateStopNeedsItsTurn | core/task_execution.py:91-278 | after the record moved on, a stop can hit again only if a later move brought its very turn back |
| TaskExecution.ActiveIsLastClaim | core/task_execution.py:32-89 | however activity, stops and rebinds interleave, an active execution belongs to the agent and session whose activity claimed the record last, and the card has not left its execution states since |
| TaskExecution.GuardedActionWaits | core/task_execution.py:280-340 | no rule guarded by a stopped execution is accepted while the record's execution is active, unless its executor is lost for good |
| ToolWitness.RepeatsIffOtherLock | core/tool_runtime.py:199-242 | for all two calls of one invocation: in some interleaving the second executes although the first one's cached result was not evicted, if and only if the two lock different things |
| ToolWitness.IgnoresHitIffOtherLock | core/tool_runtime.py:402-420 | for a call and its exact repetition: the repetition can execute in the face of the cached answer if and only if it locks something else |
| ToolWitness.SlipsIffOtherLock | core/tool_runtime.py:327-344 | for all two calls of one session and turn, whatever their tools: in some interleaving the second executes before the seal of the first runs out, if and only if the two lock different things |
| ToolRuntime.CheckSeesSeal | core/tool_runtime.py:284-304 | a call under any lock that checks its turn after the seal is refused until the seal runs out |
| ToolRuntime.GrantIsSingleUse | core/tool_runtime.py:130-145 | of two calls with one grant the later finds nothing |
| ToolRuntime.StepKeeps | core/tool_runtime.py:60-264 | every atomic section of every thread keeps locks, cache, seals and tokens consistent |
| ToolRuntime.Admission.PopGrant | core/tool_runtime.py:130-139 | takes the grant of a token, at most once |
| RolloutReader.ReverseLines | core/codex_rollout.py:326-341 | for every content and every positive chunk size, the non-empty lines in reverse order without trailing carriage returns |
| RolloutReader.SplitMeaning | core/codex_rollout.py:336-338 | the pieces hold no newline and, joined by newlines, are the file |
| RolloutReader.SplitChunk | core/codex_rollout.py:331-338 | only the first piece of what follows touches an earlier chunk |
| RolloutReader.LinesOfAppend | core/codex_rollout.py:326-341 | appending a line leaves the lines already written as they were |
| RolloutReader.FindLifecycleEvent | core/codex_rollout.py:217-242 | the first match from the end is the last match of a full forward scan |
| RolloutReader.CompletionIsDurable | core/codex_rollout.py:245-250 | a completion stays believed through later lines unless the same turn starts again |
| RolloutReader.FindTurnOfMessage | core/codex_rollout.py:185-214 | the last turn started before the newest appearance of the message |
| PromptTemplate.Placeholders | core/prompt_catalog.py:104-127 | the cursor loop returns the spans of the template's document, or refuses exactly when there is none |
| PromptTemplate.AcceptedIffPrinted | core/prompt_catalog.py:104-127 | a template is accepted exactly when it prints a document with brace-free literals and valid names |
| PromptTemplate.PrintParses | core/prompt_catalog.py:104-127 | printing a good document and parsing it gives the document back |
| PromptTemplate.ParseIsGood | core/prompt_catalog.py:104-127 | an accepted template is rebuilt by its document, whose literals hold no doubled brace |
| PromptTemplate.SpansAreOrdered | core/prompt_catalog.py:104-127 | accepted spans are in bounds, ordered and disjoint, each on its own placeholder |
| PromptTemplate.OwnPlaceholdersRebuild | core/prompt_catalog.py:130-138 | substituting every name by its own placeholder rebuilds the template |
| PromptTemplate.Substitute | core/prompt_catalog.py:130-138 | literals and values are joined in order; a value is never scanned |
| PromptTemplate.Render | core/prompt_catalog.py:49-86 | a prompt renders exactly for its surface, its triggers and its declared variables |
| SchemaGuard.CompatibleIffPrefix | core/schema_guard.py:21-56 | a ledger is accepted exactly when, without rows awaiting replacement, it is the set of some prefix of the build's sequence |
| SchemaGuard.RunEndsSupported | core/db.py:995-1008 | from any accepted ledger the migrations end at exactly the supported set, which is accepted again |
| SchemaGuard.Ledger.RunMigrations | core/db.py:995-1008 | the loop records and replaces ledger rows as specified, or refuses and changes nothing |

## Left out

- DeliverySafety.EveryDeliverySafe: holds under the two hypotheses of `Granted`; without them the members of `DeliveryLimits`, `DeliveryTwins` and `DeliveryWitness` tell what happens.
- DeliveryStore.Store.ClaimTaskDeliveries: the ORDER BY and LIMIT of the selection are not modelled; the selection is any duplicate-free list of due claimable rows, at most four times the limit long.
- DeliveryStore.Store.AcknowledgeTurn: the row is named by the caller instead of being looked up by agent and record.
- DeliveryRuntime.Runtime.Conclude: `execute` as a whole is modelled as the worker steps of `DeliverySystem`, one per transaction, because other threads run between its writes; the method covers its flags and last writes.
- DeliveryWorkerSteps.WorkKeepsInv: the reads of the board and of executions between two writes are arbitrary answers, not tied to the tables, so the proof covers more runs than the code has.
- DeliveryReconcileSteps.ReconcileKeepsInv: `reconcile` is modelled as steps of one pass and not as one loop, for the same reason; whether Codex obeys a stop request is left to the peer.
- TaskPlanner.Planner.PrepareTaskDeliveries: making queued rows of the record due at once is `DeliveryRows.PokeQueued`, a separate step of the protocol; workspace and workflow scoping of agents is left out.
- TaskEvents.EventStore.SaveTaskSnapshot: one board and one table; the last source event id is not kept; integers have one spelling.
- WorkflowDefinition.Validate: labels, colours, dispatch instructions, schema version and runtime actions are not checked.
- WorkflowActions.RetryIsApplied: stated for rules that move the task, since an update rule may clear what its payload set.
- TaskTools.RunStep: nobody edits the card between the last read and the write; resolving worktree paths is left out.
- TaskExecution.LateStopNeedsItsTurn: the delivery protocol's own writes of executions appear as the same guarded stops and rebinds.
- RolloutReader.FindLifecycleEvent: parsing a line is a function of the line; a file that changes while it is read is not modelled.
- PromptTemplate.Render: catalog loading and the declaration checks of an entry.
- SchemaGuard.RunEndsSupported: what a migration does to other tables; it deletes exactly the rows it declares to replace. The recheck between processes by data version.
- Whitespace is space, tab, line feed and carriage return; other Unicode spaces are not modelled.
- `task_delivery_turn_is_current`, which has no caller in the core.
- Lark HTTP and command line calls, Codex processes and sockets, prompt texts, logging, localisation, user interface.
- Agent registration beyond its effect on delivery rows, session keeping, monitoring, inbox counters: only easy members.
- Credentials, permissions and secret handling.
