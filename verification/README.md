# Verified models of the Lite-Harness coordinators

Lite-Harness runs agents for several owners at once. Its Manager queues runs, fences their
workspaces, hands budgets to subagents, asks for approvals, swaps plugins under running work,
and supervises MCP servers and browser sessions. JavaScript runs without interruption between
two `await`s, so each coordinator is modelled here as a step system: one step per await-free
stretch or store transaction, over which every interleaving is allowed. Safety results hold for
every sequence of steps. What comes from outside (the model's stream, tools, clocks, failures of
I/O, the order of events) is a parameter of the steps or a script, and every result ranges over it.

Dafny 4.11 checks the project with `dafny verify dfyconfig.toml`.

## Modules

| module | what it models |
|---|---|
| RunStates, RunKeys, RunQueue | the status table, the queue keys, and the queue built from promise tails |
| RunCancel | cancelling a run with its descendants |
| RunExecution, AgentLoop, WholeRun, RunBudgets | one execution with its finalization, the turn loop, both together, usage against budgets |
| ChildBudgets, SpawnAuthority | budgets of subagents over whole trees of runs; who may spawn what, and when a spawn is granted, replayed or refused |
| Approvals, ApprovalOutcomes | approval records, their resolution under races, and what may execute |
| JsonText, JsValues, CanonicalJson | string escapes, JavaScript values, the canonical printer behind approval digests |
| EventPaging | event pages bounded in bytes, and the server-sent event loop |
| ZonedSchedule, Triggers, SchedulerEngine, TriggerOutcomes | daily schedules across changes of offset; interval triggers and their leased store; several engines that fire from it |
| PluginLifecycle, PluginVerdicts, PluginRequests | plugin versions, verdicts on them, pins, cleanup debts and the lock file |
| McpSupervisor, McpOutcomes, McpSchema | one registered MCP server's transports; the structural schema check |
| SchemaRefs | factoring of published schemas into references |
| BrowserBroker, BrowserOutcomes | browser sessions and their closing |
| RenderCache, AsyncQueue, Sequences | the cache of rendered context, the event queue of delegated runtimes, and the sequences without repetition behind both |

Classes stand where the source has objects that change in place. Their methods' contracts equate
the new state with the step function of the old one, and keep the invariant where there is one;
the lemmas then range over sequences of those steps. What each step means for its observers is said
without its function, as exact conditions on what is stored, active, pinned, leased or logged: in
SpawnAuthority, PluginVerdicts, PluginRequests and the modules named Outcomes, and beside the steps of
the run queue and of an execution.

## Findings

- A run that never reached RUNNING can be left without a terminal status. Finalization settles on
  ORPHANED when the lease is lost during preparation or the run release fails, and the table
  (`packages/domain/src/index.ts:108-119`) has no way from QUEUED or PREPARING to ORPHANED, so the
  transition throws. `RunExecution.HangsIff` states exactly when.
- A parent's own usage is not held back for its children. Allocations are conserved at all times, but
  usage and allocations together fit the budget only as long as the parent reports no more than the room
  left by its latest spawn, and in tool calls perhaps not even then
  (`ChildBudgets.FitsIffReportedWithinRoom`, `ChildBudgets.ParentMayUseItsChildrensShare`).
- A subagent's budget need not be whole. The request schema demands whole turns, tool calls and tokens
  of a root; a tool call's budget (`apps/manager/src/main.ts:432-440`) may be any numbers from zero up, and
  `packages/control-plane/src/index.ts:1304-1329` only compares. The loop starts a turn for any fraction
  left (`packages/agent-runtime/src/index.ts:148-149`). So a run can start more turns than its budget
  has, exactly when that is not whole (`AgentLoop.AskOnAndOn`), and a parent with anything left can have
  any number of children (`ChildBudgets.AnyNumberOfChildren`, `ChildBudgets.TwoChildrenOfOneTurn`); the
  sums are conserved all the same, and no more children than turns exist where each was given at least
  one (`ChildBudgets.TreeIsConserved`).
- A run that is checkpointing cannot be cancelled once its controller is gone, which is so while it awaits
  its release (`packages/control-plane/src/index.ts:754-759`). Cancelling a run above it then throws
  before that run is reached, and it goes on (`RunCancel.CancelIsDoneIff`, `RunCancel.ParentGoesOn`).
- A daily time that a change of offset repeats can be passed over once
  (`ZonedSchedule.RepeatedIsMissed`, `ZonedSchedule.NextDailyIsFirstIffNotRepeated`).
- An event that is too large by itself makes the whole batch fail even when the events before it
  would fit a page (`EventPaging.SmallEventIsHeldBack`; `EventPaging.BoundedEventBatch` has the exact
  condition; `packages/control-plane/src/index.ts:1386`).
- When a turn's calls exceed the tool call budget, the call that does so and those after it are still
  executed, with an aborted signal, unless they need an approval or are refused; the run cannot succeed
  and no further turn starts (`AgentLoop.BothCallsExecuteBeyond`, `AgentLoop.ExecutesBeyondIff`).
- After a failure, a trigger's grid moves to the retry instant, and jitter moves it as well, since the
  next base is counted from the instant that was actually scheduled (`Triggers.RetryLeavesGrid`,
  `Triggers.RetryKeepsGridIff`, `Triggers.JitterLeavesGrid`, `Triggers.JitterKeepsGridIff`).
- The trigger store knows a claim by its owner's name only. A claim that outlives its lease can complete
  a later slot of the same owner's, which is then lost (`SchedulerEngine.SlotIsLost`,
  `SchedulerEngine.RecordIsTrueIff`); the in-flight guard of `apps/manager/src/main.ts:1223-1230` is what
  keeps one process from it. Under different names nothing is lost, and a run can be created twice
  (`SchedulerEngine.BothCreate`, `SchedulerEngine.CreatedTwiceIff`).
- Render cache keys join tenant and model with a NUL that the class keeps neither from holding
  (`RenderCache.ServesAnotherModel`, `RenderCache.ServesOther`). The manager does not meet this: its
  model names come from an environment list (`apps/manager/src/optional-systems.ts:163-172`), which
  cannot hold a NUL, and the renderer it uses ignores the model.

## Model

| member | source | states |
|---|---|---|
| `RunKeys.QueueKeysCollideOnlyIfEqual` | packages/control-plane/src/index.ts:491-495 | queue keys built from the length-prefixed owner, the kind and the identifier are equal exactly when all three are; identifiers may hold colons |
| `RunQueue.Reachable` | packages/control-plane/src/index.ts:489-520 | the queue invariant (tails, waits, order of starts) holds after every interleaving of enqueues, timeouts, cancellations, starts, ends and tail clean-ups |
| `RunQueue.SharesMeansSameResource` | packages/control-plane/src/index.ts:489-520 | two enqueued runs share a queue key exactly when they have one owner and a workspace or session in common |
| `RunQueue.NeverTogether` | packages/control-plane/src/index.ts:489-520 | in no history do two runs of one owner with a workspace or session in common execute at the same time |
| `RunQueue.StartsFollowEnqueues` | packages/control-plane/src/index.ts:489-520 | runs that share a resource begin in the order of their enqueues, and no run begins twice |
| `RunQueue.SomeRunCanMove` | packages/control-plane/src/index.ts:506-513 | behind every run that is not over there is one, itself or enqueued earlier, that executes or may start: waits never deadlock |
| `RunQueue.TurnComesLast` | packages/control-plane/src/index.ts:498-511 | when a run's turn comes, everything enqueued before it on a shared resource is over, cancelled and timed-out runs included |
| `RunQueue.EnqueuedWaitsIffInTime` | packages/control-plane/src/index.ts:489-513 | an accepted run whose deadline lies ahead is queued and waits in the next place; one whose deadline has passed times out and never waits; any other is left alone |
| `RunQueue.TurnComesIff` | packages/control-plane/src/index.ts:496-511 | the turn of a waiting run has come exactly when every run enqueued before it on a shared workspace or session is over: it waits for those and for nobody else |
| `RunQueue.TurnGoesTo` | packages/control-plane/src/index.ts:507-511 | when its turn has come a run executes exactly if it is still queued; one that was cancelled or timed out while it waited is over without having begun, and before its turn nothing happens |
| `RunQueue.CancelledWhileWaiting` | packages/control-plane/src/index.ts:441-454 | a run that is cancelled, or times out, while it waits becomes CANCELLED or TIMED_OUT and never begins, whatever follows |
| `RunQueue.CancelMeans` | packages/control-plane/src/index.ts:441-454 | a cancellation leaves an executing run to its execution and moves any other that is neither over nor checkpointing to CANCELLED |
| `RunQueue.QueueTimeoutMeans` | packages/control-plane/src/index.ts:829-838 | the queue's timer ends a run exactly while that is queued |
| `RunQueue.CreatedAndMoved` | packages/control-plane/src/index.ts:1125-1156 | a run begins as ACCEPTED, once, and its execution moves it exactly as the table allows |
| `RunQueue.EndsAndIsForgotten` | packages/control-plane/src/index.ts:513-520 | an execution that ends is over, and its clean-up removes exactly the tails that are the run's own |
| `RunQueue.NoTailIsLeft` | packages/control-plane/src/index.ts:515-519 | when every run has been cleaned up, no tail is left |
| `RunQueue.RunScheduler.Enqueue` | packages/control-plane/src/index.ts:489-520 | the method over the mutable maps, with its loop over the keys, makes exactly the enqueue step |
| `RunQueue.RunScheduler.TailSettled` | packages/control-plane/src/index.ts:516-519 | forgets exactly the tails that are still the run's own |
| `RunCancel.CancelIsDoneIff` | packages/control-plane/src/index.ts:441-454 | cancelling a run with its descendants is done exactly when none of those it reaches through runs that are not over is checkpointing without its controller; then each of them is told or cancelled, otherwise the run itself stays as it was, and no other run ever changes |
| `RunCancel.ParentGoesOn` | packages/control-plane/src/index.ts:754-759 | such a tree: the parent goes on because its child is checkpointing and awaits the release of its run |
| `RunCancel.RunService.CancelRun` | packages/control-plane/src/index.ts:441-454 | the recursive method over the mutable store makes exactly the specified cancellation, what a throw leaves behind included |
| `RunStates.MovesForward` | packages/domain/src/index.ts:108-134 | every transition the table lets pass leaves a non-terminal status for one of higher rank |
| `RunStates.HistoryRises` | packages/domain/src/index.ts:108-134 | rank strictly rises along every history, so no status is visited twice |
| `RunStates.HistoryEndsOnce` | packages/domain/src/index.ts:108-134 | a history has at most one terminal status, as its last entry, and at most six entries |
| `RunStates.WaysIn` | packages/domain/src/index.ts:108-119 | which statuses lead to each status: the transition table read the other way |
| `RunExecution.Execution.Body` | packages/control-plane/src/index.ts:522-640 | the body up to the agent's end: which status is reached and whether a lease and a prepared workspace are held |
| `RunExecution.Execution.Checkpoint` | packages/control-plane/src/index.ts:686-732 | what a checkpoint that fails, or finds its lease invalid, makes of the verdict |
| `RunExecution.Execution.Settle` | packages/control-plane/src/index.ts:759-791 | a cancellation during the run release comes first when the table lets it; otherwise the verdict is entered when the table lets it; one event per change |
| `RunExecution.Execution.Execute` | packages/control-plane/src/index.ts:522-806 | for every outcome of the awaited calls, the exact condition of each end: SUCCEEDED, CANCELLED, TIMED_OUT, FAILED, ORPHANED, or left hanging; and when the log holds the lease as acquired and released, and the checkpoint as written or failed |
| `RunExecution.SettledMeans` | packages/control-plane/src/index.ts:639-790 | the six ends in terms of what happened only: the deadline, the late cancellation, the run release, the lease, the workspace, the agent, the abort reason and the checkpoint |
| `RunExecution.AttemptLogTells` | packages/control-plane/src/index.ts:561-760 | the log tells exactly whether the lease was acquired and given back and whether the checkpoint was written or failed |
| `RunExecution.SuccessMeans` | packages/control-plane/src/index.ts:640-774 | the verdict is SUCCEEDED exactly when the agent returned, a configured checkpoint completed under a valid lease, the lease was given back and the run release left no debt |
| `RunExecution.RunningAlwaysEnds` | packages/control-plane/src/index.ts:606-785 | once RUNNING was reached, the verdict is always a transition that the table allows |
| `RunExecution.HangsIff` | packages/control-plane/src/index.ts:522-791 | the exact condition under which a run is left without a terminal status: it never reached RUNNING, no cancellation came, and its run release failed or its lease was lost; among the combinations that can occur, the latter is to say that preparing the workspace failed with the lease lost. The table has no way from PREPARING or QUEUED to ORPHANED |
| `RunExecution.LeaseLossWhilePreparingHangs` | packages/control-plane/src/index.ts:664-672 | one such run: the lease is lost while the workspace is prepared |
| `WholeRun.Execute` | packages/control-plane/src/index.ts:522-806 | a run, its agent loop included, ends SUCCEEDED exactly when the script ends its agent with some turn, the signal had not fired before, and nothing around it failed or came first; then recorded usage is within all four budgets and the sum of what its turns reported, no more turns started than the budget has, a fraction counting as one, and the log is that of a success |
| `AgentLoop.AgentExecution.Record` | packages/control-plane/src/index.ts:1037-1123 | recorded usage adds up and the signal fires with the budget as reason exactly when the sum first exceeds it, unless it has fired before |
| `AgentLoop.AgentExecution.Collect` | packages/agent-runtime/src/index.ts:167-215 | a turn's stream is accepted only if nothing recorded exceeds the budget by then; its calls and reports are those before the stream's end, in order; result, usage and signal are those of the specified hearing of the stream |
| `AgentLoop.HeardIffInFull` | packages/agent-runtime/src/index.ts:167-222 | a stream is accepted exactly when plain events run up to its end with a Completed among them, priced reports and usage where it is demanded, and the running total fits |
| `AgentLoop.StreamFailsAs` | packages/agent-runtime/src/index.ts:167-176 | a stream that gives no further event fails as aborted if the signal has fired by then, and else for its own reason |
| `AgentLoop.AgentExecution.RunTools` | packages/agent-runtime/src/index.ts:223-268 | however the calls of a turn end, they leave exactly their trace: each one requested, then executed unless its arguments, approval, authorization or timeout are refused, up to the first that fails |
| `AgentLoop.ExecutesBeyondIff` | packages/agent-runtime/src/index.ts:223-268 | a turn executes a tool beyond the budget exactly when the first call whose count passes the tool call budget, whole or not, is among its calls, those before it are carried out in full, and it starts although the signal has fired |
| `AgentLoop.BothCallsExecuteBeyond` | packages/control-plane/src/index.ts:1116-1123 | one such turn: two plain calls under a tool call budget of none, and both are executed |
| `AgentLoop.AgentExecution.Run` | packages/agent-runtime/src/index.ts:148-279 | a run succeeds exactly when, in its script, some turn within the turn limit finishes it: every turn before it is read in full without the signal firing, its calls are carried out and it asks on; the last one ends with a Completed that asks for nothing and has no call; and all that is reported and called fits the budget. Otherwise it fails, and it never starts more turns than the least whole number not below the budget's |
| `AgentLoop.QuietTurnEnds` | packages/agent-runtime/src/index.ts:148-276 | a turn that says something, reports no cost and asks for nothing ends the run; the same turn without its Completed ends none |
| `AgentLoop.AskOnAndOn` | packages/agent-runtime/src/index.ts:148-149 | for every budget there is a run that starts as many turns as that number, so no run starts more turns than its budget has exactly when the budget has a whole number of them |
| `AgentLoop.NoTurnAfterExcess` | packages/agent-runtime/src/index.ts:148-150 | once recorded usage exceeds a budget, no further model turn starts |
| `AgentLoop.TraceAt` | packages/agent-runtime/src/index.ts:148-268 | every turn started while usage was within the budget; every execution directly follows the counted request for the same tool |
| `ChildBudgets.AllocatedIsChildSum` | packages/control-plane/src/index.ts:1272-1284 | the reduction over the children is, in each dimension, the sum of what they were given |
| `ChildBudgets.GrantFits` | packages/control-plane/src/index.ts:1304-1329 | a granted budget is positive where a budget must be, fits beside what was handed out before in each dimension, and its timeouts do not grow |
| `ChildBudgets.GrantedAsAsked` | packages/control-plane/src/index.ts:1304-1329 | an amount that was asked for is granted as asked, or the request is refused |
| `SpawnAuthority.StoredIsEntitled` | packages/control-plane/src/index.ts:162-205 | whenever a child is stored, its parent is not over and not at the depth limit, the child's profile exists, and its tools and capabilities are within the parent's where that has a profile; nothing else is stored |
| `SpawnAuthority.DescendantsAddNothing` | packages/control-plane/src/index.ts:162-181 | in every history with fixed profiles, no descendant of a run at any depth has a tool or capability that the run's own agent, where configured, has not |
| `SpawnAuthority.CreatedIff` | packages/control-plane/src/index.ts:162-223 | a child is created exactly when its parent is entitled to it, its key is new to the owner, and every amount and timeout that is asked for fits what is left |
| `SpawnAuthority.GrantedAmounts` | packages/control-plane/src/index.ts:1304-1329 | what is granted: each amount as asked, or the least of the usual one and what is left; each timeout as asked, or the parent's, the total at most five minutes |
| `SpawnAuthority.ReplayedIff` | packages/control-plane/src/index.ts:182-191 | an existing child is the answer exactly when the parent is entitled to it, it carries the key, and agent, input and every amount asked for are its own |
| `SpawnAuthority.RefusedBecause` | packages/control-plane/src/index.ts:169-194 | which error a refusal gives, and that its reason is there |
| `SpawnAuthority.RootIsStoredIff` | packages/storage-sqlite/src/index.ts:864-930 | a root's run is stored exactly when its key is new to its owner and its budget is what the request schema lets in |
| `SpawnAuthority.ReportedIsAdded` | packages/control-plane/src/index.ts:1037-1115 | reported usage is added, dimension by dimension, to a run that is not over and to no other |
| `SpawnAuthority.StatusMoves` | packages/domain/src/index.ts:108-135 | a run's status moves exactly as the table allows |
| `ChildBudgets.DefaultsAreGrantedIffRoom` | packages/control-plane/src/index.ts:1272-1329 | a request that names no amount is granted exactly when something is left of the turns and, beside known usage, of the tokens each way |
| `ChildBudgets.StepKeepsSound` | packages/control-plane/src/index.ts:159-223 | every step keeps the tree sound: placement, conservation between parent and children, one run per owner and key |
| `ChildBudgets.ChildrenNeverExceedParent` | packages/control-plane/src/index.ts:159-223 | in every history, no parent's children hold more than the parent in turns, tool calls, input tokens, output tokens or cost |
| `ChildBudgets.LevelsShrink` | packages/control-plane/src/index.ts:159-223 | a generation of descendants never holds more than the one above it |
| `ChildBudgets.TreeIsConserved` | packages/control-plane/src/index.ts:159-223 | in every history and for every run: each generation of descendants holds at most the run's budget in each dimension, stays within the depth limit, the owner and the timeouts; where every child was given a turn at least, it also numbers at most the run's turns |
| `ChildBudgets.AnyNumberOfChildren` | packages/control-plane/src/index.ts:1304-1329 | without that condition nothing bounds their number: a parent that may spawn, with anything left of its turns and tokens, can be given any number of children |
| `ChildBudgets.TwoChildrenOfOneTurn` | packages/control-plane/src/index.ts:1304-1329 | such a history: a run of one turn with two children |
| `ChildBudgets.UnknownUsageAdmitsNoChild` | packages/control-plane/src/index.ts:1287-1294 | a parent whose input or output token usage was never reported gets no new child |
| `ChildBudgets.WithinEveryDimension` | packages/control-plane/src/index.ts:1116-1123 | what the loop enforces is that recorded usage is within the budget in every dimension that is recorded |
| `ChildBudgets.FitsWhenSpawned` | packages/control-plane/src/index.ts:1272-1299 | right after a spawn, the parent's usage and its children's shares fit its budget together exactly when: in tokens and cost, the child was given anything there or both fitted before; in tool calls, the share left room for the calls already made |
| `ChildBudgets.FitsIffReportedWithinRoom` | packages/control-plane/src/index.ts:1037-1123 | at any time after a parent's latest spawn, in every history and dimension, both fit exactly when they did right after it and no more has been reported since than the room then left, which is what a further child could have been given |
| `ChildBudgets.ParentMayUseItsChildrensShare` | packages/control-plane/src/index.ts:1116-1123 | a history in which they do not fit: whatever more the parent reports after its child was given the rest |
| `ChildBudgets.SpawnIsIdempotent` | packages/control-plane/src/index.ts:182-191 | a repeated request, at any later time at which the parent may still spawn, is answered with the child already made and stores nothing |
| `Approvals.OneResolutionEach` | packages/control-plane/src/index.ts:318-348 | however user, timer, abort and shutdown race: an approval that left PENDING has exactly one resolved event, a pending one has none, and a waiter that woke with true finds the record APPROVED |
| `Approvals.UsersAnswer` | packages/control-plane/src/index.ts:318-348 | when a user's answer leads to APPROVED, EXPIRED or DENIED, with the service's and the store's clock apart |
| `ApprovalOutcomes.AskedIff` | packages/control-plane/src/index.ts:871-928 | an approval is recorded and awaited exactly for a live run's call whose arguments are JSON under a known policy, and binds the call, the run, the circumstances and the expiry |
| `ApprovalOutcomes.UserResolvesTo` | packages/control-plane/src/index.ts:318-348 | what a user's answer makes of an approval and of the code that awaits it, in terms of the run, both clocks and everything the approval was bound to |
| `ApprovalOutcomes.WaitEndsWithout` | packages/control-plane/src/index.ts:929-962 | while an approval is awaited its timer expires it, its run's abort denies it and a shutdown leaves its record alone; each ends the wait without an approval, and later nothing changes |
| `ApprovalOutcomes.GoesOnTo` | packages/control-plane/src/index.ts:963-1012 | a call whose wait is over is executed exactly when it was granted and the approval still stands: unexpired, for this run and this very call, with nothing it was bound to changed |
| `ApprovalOutcomes.ApprovedIsExecuted` | packages/control-plane/src/index.ts:872-1012 | the way is open: what a live run asks for and a user approves in time under the same circumstances is executed if the run goes on with the same call in time |
| `Approvals.ResolvedIsFinal` | packages/storage-sqlite/src/index.ts:1427-1445 | a record that left PENDING never changes again |
| `Approvals.ExecutionsAreApproved` | packages/control-plane/src/index.ts:1005-1012 | a tool executes under an approval only if the record is APPROVED, was approved and is used before it expires, and binds this run, owner, workspace, call, canonical arguments, policy version and route |
| `Approvals.ExecutedArgumentsWereApproved` | packages/control-plane/src/index.ts:977-1003 | the arguments a tool executes with mean what the approved arguments meant, member order aside |
| `Approvals.OneExecutionEach` | packages/control-plane/src/index.ts:872-1012 | in every history an approval is executed under once if the code that waited for it went on to execute, and otherwise never; nothing but that code's own progress keeps it from a second time |
| `Approvals.FinishedIsFinal` | packages/control-plane/src/index.ts:872-1012 | what became of the code that waited for an approval never changes, whatever comes later |
| `Approvals.ApprovalService.GoOn` | packages/control-plane/src/index.ts:963-1012 | the method by which the waiting code goes on: it executes exactly when it was woken with true and the record still covers this call now |
| `Approvals.ApprovalService.ResolveApproval` | packages/control-plane/src/index.ts:318-348 | the method over the mutable maps makes exactly the resolution step, with its second attempt as expired, and answers with the record as it stands |
| `JsonText.ParseBodyInvertsEscape` | packages/control-plane/src/index.ts:1244-1246 | reading back an escaped string gives the string, lone surrogates and control characters included |
| `CanonicalJson.SortOrders` | packages/control-plane/src/index.ts:1254 | keys come out in ascending order of code units |
| `CanonicalJson.SortKeepsMembers` | packages/control-plane/src/index.ts:1254 | sorting keeps exactly the members |
| `CanonicalJson.PrintsIffJson` | packages/control-plane/src/index.ts:1244-1261 | printing succeeds exactly on JSON values; non-finite numbers, undefined members and other values raise |
| `CanonicalJson.CanonicalTextParsesBack` | packages/control-plane/src/index.ts:1244-1261 | a canonical text parses back to exactly the value that was printed |
| `CanonicalJson.PrintsAlikeIffSameMeaning` | packages/control-plane/src/index.ts:1244-1261 | two JSON values print alike exactly when they are equal with objects read as maps |
| `EventPaging.PageSizeIsEncodedSize` | packages/control-plane/src/index.ts:1383-1393 | the running byte count is the UTF-8 size of the encoded page |
| `EventPaging.BoundedEventBatch` | packages/control-plane/src/index.ts:1378-1396 | a page is the longest prefix within the count and byte limits, never empty while events remain; the exact condition for an error and for which one, which also strikes when a later event of the batch is too large by itself |
| `EventPaging.SmallEventIsHeldBack` | packages/control-plane/src/index.ts:1378-1396 | two events under a limit of fifty bytes: the first would fit a page, and the batch fails for the second |
| `EventPaging.FollowRound` | apps/gateway/src/server.ts:394-402 | one round of the stream keeps what was sent a gapless part of the log, moves on whenever events are left, and ends the stream exactly when no page can be made, the client leaves while it is written, or the run is over and all has been sent |
| `EventPaging.StreamEvents` | apps/gateway/src/server.ts:384-406 | for every growing log: the client is sent the log after its start cursor, each event once and in order, and the stream ends in the first round that ends it, for that round's reason |
| `ZonedSchedule.ZonedLocalToUtc` | packages/automation/src/index.ts:278-293 | the loop of at most six corrections computes the search function |
| `ZonedSchedule.SolveFinds` | packages/automation/src/index.ts:278-293 | with at most one change of offset in reach, which instant the search returns |
| `ZonedSchedule.SolveFailsIffSkipped` | packages/automation/src/index.ts:278-293 | the nonexistent-time error is raised exactly on clock readings that the change jumps over |
| `ZonedSchedule.SolveIffShown` | packages/automation/src/index.ts:278-293 | an instant is found exactly when some instant shows the wanted wall clock |
| `ZonedSchedule.NextDailyOccurrence` | packages/automation/src/index.ts:260-276 | the loop over four days computes the search for the next daily time, with an error for a malformed time |
| `ZonedSchedule.NextDailyExists` | packages/automation/src/index.ts:260-276 | with one change of under a day, the third try at the latest returns an instant after the start that shows the requested time |
| `ZonedSchedule.NextDailyIsFirst` | packages/automation/src/index.ts:260-276 | when the change does not repeat the time, the instant returned is the first one after the start |
| `ZonedSchedule.RepeatedIsMissed` | packages/automation/src/index.ts:260-276 | a repeated time has a start from which one of its two instants is passed over |
| `ZonedSchedule.NextDailyIsFirstIffNotRepeated` | packages/automation/src/index.ts:260-276 | the instant returned is the first one, from every start, exactly when the change does not repeat the time of day |
| `Triggers.SkipMovesToLeastSlot` | packages/automation/src/index.ts:246-258 | a due trigger that skips moves to the least grid instant after the firing, and at most its jitter beyond |
| `Triggers.OnlyTheHolderAdvances` | packages/automation/src/index.ts:114-158 | only the owner of the current lease moves a trigger, and a lease changes hands only after it expired |
| `Triggers.CatchUpFiresEverySlot` | packages/automation/src/index.ts:133-148 | in the store, without failures, a catching-up trigger's completions move along its grid slot by slot, whoever claims and completes |
| `Triggers.OneShotFiresOnce` | packages/automation/src/index.ts:114-148 | a one-shot that completed is never claimed or completed again unless it is put anew |
| `Triggers.CompletedOneShotRests` | packages/automation/src/index.ts:133-143 | completing a one-shot disables it and frees its lease |
| `Triggers.SlotsNeverRepeat` | packages/automation/src/index.ts:133-158 | in the store, the slots that completions end strictly rise as long as retries that count lie after the slot they put off |
| `Triggers.JitterKeepsGridIff` | packages/automation/src/index.ts:253-258 | jitter keeps a skipping trigger on its grid exactly when the offset drawn is a whole number of intervals |
| `Triggers.JitterLeavesGrid` | packages/automation/src/index.ts:253-258 | a jitter that leaves a minute's grid |
| `Triggers.RetryKeepsGridIff` | packages/automation/src/index.ts:150-158 | after a failure every later slot lies on the former grid exactly when the retry instant does: a whole number of intervals from the slot that failed |
| `Triggers.RetryLeavesGrid` | packages/automation/src/index.ts:150-158 | a retry after half a minute takes a minute's grid to the half minutes |
| `Triggers.SqliteTriggerStore.ClaimDue` | packages/automation/src/index.ts:114-131 | leases exactly the enabled rows that are due and free, whatever the order of the rows |
| `Triggers.SqliteTriggerStore.Complete` | packages/automation/src/index.ts:133-148 | succeeds exactly for the lease owner and moves the row to its next slot, or to rest |
| `TriggerOutcomes.ClaimTakesExactly` | packages/automation/src/index.ts:114-131 | a claim leases exactly the rows that are enabled, due and under no running lease, for the time given, and notes their slots |
| `TriggerOutcomes.CompletionCountsIff` | packages/automation/src/index.ts:133-148 | a completion counts exactly for the owner of the lease: the slot is noted, the lease given back, a one-shot disabled, any other moved to its next slot |
| `TriggerOutcomes.FailureCountsIff` | packages/automation/src/index.ts:150-158 | a failure counts exactly for the owner of the lease: the slot is put off to the retry and the lease given back |
| `TriggerOutcomes.PutTakesEffect` | packages/automation/src/index.ts:93-112 | a valid trigger takes effect at once and is enabled, and a claim under way keeps its lease |
| `TriggerOutcomes.TickClaimsExactly` | packages/automation/src/index.ts:194-196 | a tick claims exactly the slots that may be claimed now, for half a minute |
| `TriggerOutcomes.FlightEndsAs` | packages/automation/src/index.ts:194-206 | how a claimed slot ends: when its run counts as created, when as fired, and when it is tried again |
| `TriggerOutcomes.LostFlightLeaves` | packages/automation/src/index.ts:194-206 | an engine that is lost leaves the store alone, and the run it had created stays |
| `TriggerOutcomes.EnsuresOnce` | packages/automation/src/index.ts:105-112 | a trigger that is there is not replaced, a new one is put as it is |
| `TriggerOutcomes.DueSlotFires` | packages/automation/src/index.ts:187-206 | a due slot that is claimed and whose run is created and completed has fired, once |
| `SchedulerEngine.RecordIsTrueIff` | packages/automation/src/index.ts:187-206 | in every history of several engines, the slots recorded as completed are those claimed by the calls that completed them, each after its run was created, in the same order, exactly when each completion ended a lease taken for that very slot |
| `SchedulerEngine.OrderlyRecordIsTrue` | packages/automation/src/index.ts:187-206 | they are, whenever no engine ticks while a claim under its own name outlives its lease: creating a run took less than the lease, or the names differ |
| `SchedulerEngine.CompletedWereCreated` | packages/automation/src/index.ts:194-201 | under such engines, the run of every completed slot was created |
| `SchedulerEngine.AllCreatedCompleteIff` | packages/automation/src/index.ts:194-204 | under such engines, all runs that were created are those of the completed slots, in the same order, exactly when every creation was followed by a completion that the store accepted: no claim was taken over or lost, and no completion threw |
| `SchedulerEngine.CreatedTwiceIff` | packages/automation/src/index.ts:194-201 | under such engines, a slot's run is created more than once exactly when a claim that created it outlived its lease and a claim made after that created it again |
| `SchedulerEngine.PromptCreatesOnce` | packages/automation/src/index.ts:194-201 | a slot each of whose claims reports back within its lease has its run created once at most |
| `SchedulerEngine.BothCreate` | packages/automation/src/index.ts:194-201 | such a history: two engines of different names create the run of one slot, which is completed once |
| `SchedulerEngine.CatchUpFiresEverySlot` | packages/automation/src/index.ts:187-206 | under such engines, as long as runs get created and completions do not throw, every slot of a catching-up trigger's grid completes, each once, in order and after its run was created, whatever engines come and go |
| `SchedulerEngine.SlotsNeverRepeat` | packages/automation/src/index.ts:187-206 | under such engines, failures or not, the slots that complete strictly rise, since a retry lies thirty seconds after its claim and the claim not before its slot |
| `SchedulerEngine.StaleClaimCompletesAnother` | packages/automation/src/index.ts:194-201 | a claim that outlived its lease ends a later claim of the same name and completes that one's slot |
| `SchedulerEngine.SlotIsLost` | packages/automation/src/index.ts:194-204 | such a history in full: the claim of the second slot fails to create its run, the store does not listen to it, and the slot stays recorded as completed with no claim of it under way or due |
| `PluginLifecycle.StepKeepsInv` | apps/manager/src/plugin-lifecycle.ts:250-427 | every step of every lifecycle operation, with runs pinned and tools invoked at any await, and a crash at any await, keeps the invariant |
| `PluginLifecycle.LockIsAlwaysValid` | packages/plugin-core/src/index.ts:922-981 | every lock file the manager ever writes passes the lock's validation, and memory agrees with it |
| `PluginLifecycle.InUseIsInstalled` | apps/manager/src/plugin-lifecycle.ts:409-427 | in every history, a version that is active or pinned is installed and verified and owes no cleanup |
| `PluginVerdicts.ReadyWasVerified` | apps/manager/src/plugin-lifecycle.ts:250-346 | in every history, a package that counts as verified owes it to a verdict in its favour, given while it was being installed or upgraded to, and has been installed ever since |
| `PluginVerdicts.InUseWasVerified` | apps/manager/src/plugin-lifecycle.ts:326-346 | so does every version that is active or that a run is pinned to |
| `PluginVerdicts.FailedUpgradeIsDiscarded` | apps/manager/src/plugin-lifecycle.ts:326-356 | an upgrade whose migration, verification or activation fails leaves activation, pins and all other packages as they were, and ends with the new package gone |
| `PluginVerdicts.PassedUpgradeIsActive` | apps/manager/src/plugin-lifecycle.ts:326-346 | an upgrade that passes makes the new version active, keeps the former one to roll back to with the migration's word on whether it may, and leaves pinned runs alone |
| `PluginVerdicts.FailedInstallIsRemoved` | apps/manager/src/plugin-lifecycle.ts:250-268 | an installation that is not verified leaves nothing |
| `PluginVerdicts.InstalledIsReady` | apps/manager/src/plugin-lifecycle.ts:250-268 | one that is verified is ready, disabled and not active |
| `PluginVerdicts.RollbackBeginsIff` | apps/manager/src/plugin-lifecycle.ts:359-371 | a rollback begins exactly when there is a former version, verified and without a debt, and the current one's migration can be undone; till its verdict it changes nothing |
| `PluginVerdicts.FailedRollbackChangesNothing` | apps/manager/src/plugin-lifecycle.ts:372-386 | a rollback target that fails its verification stays where it is |
| `PluginVerdicts.PassedRollbackIsActive` | apps/manager/src/plugin-lifecycle.ts:372-386 | one that passes becomes active, and the version it replaces is the next to roll back to |
| `PluginVerdicts.EnabledIff` | apps/manager/src/plugin-lifecycle.ts:270-308 | enabling makes a package active exactly when it is verified, owes no stop, no other version is active or waits to resume, and its registration succeeds; otherwise nothing changes |
| `PluginVerdicts.RetrySettlesDebt` | apps/manager/src/plugin-lifecycle.ts:760-782 | a retried stop settles its debt or costs three attempts more |
| `PluginVerdicts.RestartKeepsVerified` | apps/manager/src/plugin-lifecycle.ts:503-510 | a restart removes exactly the packages that no verdict has come for |
| `PluginRequests.OneAtATime` | apps/manager/src/plugin-lifecycle.ts:833-841 | a request waits until the operation before it is over |
| `PluginRequests.InstallsIff` | apps/manager/src/plugin-lifecycle.ts:250-256 | a package is staged exactly if it is not installed, disabled and in no use |
| `PluginRequests.UpgradesIff` | apps/manager/src/plugin-lifecycle.ts:315-325 | an upgrade begins exactly for an active plugin and a version of it that is not installed |
| `PluginRequests.DisablesIff` | apps/manager/src/plugin-lifecycle.ts:388-397 | a plugin is disabled exactly when it is active, in the version expected; exactly its generations that no run is pinned to are to be stopped |
| `PluginRequests.StopsAreSettled` | apps/manager/src/plugin-lifecycle.ts:794-805 | what was stopped owes nothing, and what could not be stopped owes three attempts more |
| `PluginRequests.UninstallsIff` | apps/manager/src/plugin-lifecycle.ts:409-416 | a package may be removed exactly when it is neither active nor pinned |
| `PluginRequests.UninstalledIsGone` | apps/manager/src/plugin-lifecycle.ts:417-427 | once stopped it is gone with its debt and whatever pointed to it; if it could not be stopped all stays |
| `PluginRequests.PinsOnce` | apps/manager/src/plugin-lifecycle.ts:534-540 | the first look pins a run to what is active then, and later looks change nothing |
| `PluginRequests.CallsPinned` | apps/manager/src/plugin-lifecycle.ts:534-544 | a call starts the generation that its run is pinned to, and a first call pins the run to what is active |
| `PluginRequests.ReleasesIff` | apps/manager/src/plugin-lifecycle.ts:440-444 | a release looks at every version its run saw, once |
| `PluginRequests.ReleaseStopsUnused` | apps/manager/src/plugin-lifecycle.ts:445-450 | a version that is active or pinned by another run stays, any other is to be stopped |
| `PluginRequests.ReleaseTakesTurns` | apps/manager/src/plugin-lifecycle.ts:440-458 | the loop takes its turns one after the other: none while a stop is awaited, and each version once |
| `PluginRequests.ReleaseGoesOn` | apps/manager/src/plugin-lifecycle.ts:451-458 | a stop that succeeds settles what the version owed, one that fails is remembered |
| `PluginRequests.ReleasedRunIsFree` | apps/manager/src/plugin-lifecycle.ts:451-466 | in the end the run is pinned no more, and what could not be stopped is owed |
| `PluginRequests.RetriesIff` | apps/manager/src/plugin-lifecycle.ts:760-782 | only what is owed is tried again |
| `PluginLifecycle.StopsSpareWhatIsUsed` | apps/manager/src/plugin-lifecycle.ts:440-466 | a generation is being stopped only while it is not active and not pinned by another run than the one being released, and no other caller can resolve to it |
| `PluginLifecycle.RunKeepsItsVersions` | apps/manager/src/plugin-lifecycle.ts:534-544 | whatever operations come later, an unreleased run resolves every plugin to the version it was first pinned to, and that version stays installed |
| `PluginLifecycle.RollbackTwice` | packages/plugin-core/src/index.ts:321-342 | rolling back twice restores the version, its predecessor and every package |
| `PluginLifecycle.RollbackAfterUpgrade` | packages/plugin-core/src/index.ts:271-342 | a rollback after an upgrade brings the former version back and keeps the new one as its predecessor |
| `PluginLifecycle.EnableAfterDisable` | packages/plugin-core/src/index.ts:271-319 | enabling after a disable restores the version, its predecessor and every package |
| `PluginLifecycle.RestartServesTheSame` | apps/manager/src/plugin-lifecycle.ts:160-195 | a crash between stretches loses no activation, and the restarted manager holds verified packages only |
| `PluginLifecycle.CrashBetweenDebts` | apps/manager/src/plugin-lifecycle.ts:388-460 | so does a crash between the writes of one stretch that settles or records several debts: it leaves a valid lock, over which the same manager starts as over the lock before |
| `PluginLifecycle.ManagerPluginLifecycle.PinRun` | apps/manager/src/plugin-lifecycle.ts:534-540 | the first look fixes the versions a run sees; later looks give the same |
| `PluginLifecycle.ManagerPluginLifecycle.Enable` | apps/manager/src/plugin-lifecycle.ts:270-308 | the method over the mutable maps makes exactly the enable step for a package whose verification is recorded, and keeps the invariant |
| `PluginLifecycle.ManagerPluginLifecycle.Disable` | apps/manager/src/plugin-lifecycle.ts:388-407 | after a disable the plugin is off, resumes at its former version, and only unpinned generations of it are to be stopped |
| `PluginLifecycle.ManagerPluginLifecycle.FinishUninstall` | apps/manager/src/plugin-lifecycle.ts:409-427 | what an uninstall removes, and what a failed stop leaves as it was |
| `PluginLifecycle.ManagerPluginLifecycle.ReleaseTurn` | apps/manager/src/plugin-lifecycle.ts:444-450 | a pinned version is stopped exactly when it is not active and no other run is pinned to it |
| `PluginLifecycle.ManagerPluginLifecycle.FinishRelease` | apps/manager/src/plugin-lifecycle.ts:451-460 | a release lets go of the pins and leaves a debt for whatever could not be stopped |
| `McpSupervisor.StepKeepsInv` | packages/mcp/src/index.ts:487-692 | every step keeps leases, counts, catalog and transports consistent |
| `McpSupervisor.NeverCurrentAgain` | packages/mcp/src/index.ts:672-692 | a lease that was current and no longer is will never be current again |
| `McpSupervisor.StaleIsHarmless` | packages/mcp/src/index.ts:510-530 | a result or failure under a stale lease is not handed out, not counted, and stops nothing |
| `McpSupervisor.ResultsAreCurrent` | packages/mcp/src/index.ts:504-514 | a result is handed out only under the current lease, and then no failure is remembered |
| `McpSupervisor.StopsAreJustified` | packages/mcp/src/index.ts:656-692 | only the current transport is ever told to stop: on request, idle with no operation, by a failure under its own lease, or by a cancellation of its only operation |
| `McpOutcomes.StopOnRequest` | packages/mcp/src/index.ts:571-573 | a request stops the transport that is there, with its catalog and its generation, unless one is stopping already |
| `McpOutcomes.StopWhenIdle` | packages/mcp/src/index.ts:656-670 | the idle timer stops its transport exactly when that is still the one, no operation is under way and none is stopping |
| `McpOutcomes.StopIsOver` | packages/mcp/src/index.ts:690-692 | a stop that ends leaves all else as it was |
| `McpOutcomes.BeginsIff` | packages/mcp/src/index.ts:494-496 | an operation begins exactly when no failure makes it wait |
| `McpOutcomes.AcquiresTransport` | packages/mcp/src/index.ts:584-599 | an operation gets the transport there is, or a new one of the next generation, after the stop it waited for |
| `McpOutcomes.StartsCalling` | packages/mcp/src/index.ts:601-618 | once started it calls at once, or joins or begins the reading of the catalog where one is expected and none is known |
| `McpOutcomes.CatalogCountsIff` | packages/mcp/src/index.ts:620-643 | a catalog counts exactly when it matches and is of the transport that is still there |
| `McpOutcomes.CatalogSettlesOnce` | packages/mcp/src/index.ts:614-618 | a catalog that has been looked at is not looked at again |
| `McpOutcomes.CheckedGoesOn` | packages/mcp/src/index.ts:601-618 | an operation that waits for a catalog goes on to its call when that counts, and waits while it is being read |
| `McpOutcomes.HandsOutIff` | packages/mcp/src/index.ts:504-514 | a result is handed out and failures forgotten exactly under the lease that still holds and if it fits; else the operation fails |
| `McpOutcomes.FailMeans` | packages/mcp/src/index.ts:514-530 | what a failure does: exactly when it is counted, when it stops the transport, and when the operation waits for that |
| `McpOutcomes.FailsOtherwise` | packages/mcp/src/index.ts:514-530 | so does a transport that is not got or does not start, and a catalog that does not count or is not waited for |
| `McpOutcomes.FirstFailureWaits` | packages/mcp/src/index.ts:579-582 | the first failure costs a quarter second, or the most there is to wait if that is less |
| `McpOutcomes.CleanedIsOver` | packages/mcp/src/index.ts:516-530 | an operation that waits for a stop is over exactly when that stop is |
| `McpSupervisor.SupervisorIsSound` | packages/mcp/src/index.ts:487-692 | in every history: a validated catalog is the current transport's own, every call is preceded by a matching catalog where one is expected, whoever waits for the shared catalog promise waits for the catalog of its own lease, operations are counted right, and every transport created is the current one or was told to stop exactly once |
| `McpSupervisor.BackoffGrows` | packages/mcp/src/index.ts:579-582 | the waiting time doubles per failure and never passes its maximum |
| `McpSupervisor.McpRegistration.AcquireTransport` | packages/mcp/src/index.ts:584-599 | creates a transport only when there is none, and leases the current one |
| `McpSupervisor.McpRegistration.EnsureExpectedCatalog` | packages/mcp/src/index.ts:608-618 | joins the pending catalog or has one read under this lease; either way the catalog waited for is that of the lease |
| `McpSupervisor.McpRegistration.SettleCatalog` | packages/mcp/src/index.ts:620-643 | a catalog that came validates the registration exactly when it matches and its lease is still current; otherwise everyone who waits for it fails |
| `McpSupervisor.McpRegistration.StopTransport` | packages/mcp/src/index.ts:676-692 | stops the expected lease's transport, or nothing when it is stale or a stop is pending |
| `McpSupervisor.McpRegistration.TakeResult` | packages/mcp/src/index.ts:504-514 | accepts a result exactly under the current lease; otherwise all but the count of operations stays as it was |
| `McpSchema.CheckBounds` | packages/mcp/src/index.ts:789-814 | the first worklist loop accepts exactly the trees within the recursive size, depth, width and key bounds, after at most 4097 visits |
| `McpSchema.CheckSchemas` | packages/mcp/src/index.ts:816-863 | the second worklist loop accepts exactly the values that are well-formed in every schema position |
| `McpSchema.ValidateStructure` | packages/mcp/src/index.ts:788-864 | the whole check accepts exactly the trees that satisfy both recursive specifications |
| `McpSchema.OrderDoesNotMatter` | packages/mcp/src/index.ts:788-864 | in whatever order the two worklists are taken, the same trees are accepted |
| `McpSchema.VisitSchema` | packages/mcp/src/index.ts:825-862 | one visit accepts exactly the schemas whose keywords and containers are well-formed, and pushes exactly their subschemas |
| `SchemaRefs.ExpandInvertsRewrite` | scripts/generate-openapi.ts:316-331 | expanding the references of a rewritten tree gives the tree back, with no more nesting of references than the tree's objects have |
| `SchemaRefs.FreeComesBack` | scripts/generate-openapi.ts:126-132 | every published component expands to its schema, identical named schemas included |
| `SchemaRefs.KeepsMeaningIffFree` | scripts/generate-openapi.ts:126-132 | the rewriting keeps every meaning exactly when no schema was written with a reference to begin with |
| `SchemaRefs.NoCopyRemains` | scripts/generate-openapi.ts:316-331 | no published component still spells out another named schema |
| `BrowserBroker.StepKeepsInv` | packages/browser/src/index.ts:794-992 | every step keeps operations counted, sessions within the limit, identifiers fresh and closings consistent |
| `BrowserBroker.DrainsBeforeStopping` | packages/browser/src/index.ts:918-940 | in every history a driver is stopped only when no operation of its session is left, operations use a driver only while it is started and not being stopped, idle timers run on unused open sessions only, and the session limit holds |
| `BrowserBroker.ClosingIsFinal` | packages/browser/src/index.ts:884-916 | nothing begins on a session that is closing, and it never opens again |
| `BrowserBroker.WrittenOnce` | packages/browser/src/index.ts:923-941 | a closed session never comes back, and its durable state stays as it was left |
| `BrowserBroker.StepWritesOnce` | packages/browser/src/index.ts:923-941 | a durable terminal state, once written, is not written over |
| `BrowserBroker.CloseAllLeavesNone` | packages/browser/src/index.ts:865-882 | when closing all is over, no session is left |
| `BrowserBroker.CloseAllCanComplete` | packages/browser/src/index.ts:865-882 | from every state in which closing all is pending, some continuation completes it |
| `BrowserOutcomes.CreatesIff` | packages/browser/src/index.ts:794-810 | a session is created exactly within the limit, under a new identifier and while not everything is being closed |
| `BrowserOutcomes.BeginsIff` | packages/browser/src/index.ts:884-901 | an operation begins exactly on the caller's own open session that is in use or not expired |
| `BrowserOutcomes.StartsDriverOnce` | packages/browser/src/index.ts:967-982 | the driver is started by the first operation that needs it and not again while it starts or runs |
| `BrowserOutcomes.RunsWhenStarted` | packages/browser/src/index.ts:967-982 | a start that ends well makes the driver run, and one that does not leaves it as it was |
| `BrowserOutcomes.NothingStartsUnasked` | packages/browser/src/index.ts:967-982 | no driver runs that was not being started |
| `BrowserOutcomes.UsesDriverIffStarted` | packages/browser/src/index.ts:812-827 | an operation uses the driver exactly when it runs |
| `BrowserOutcomes.EndsOperation` | packages/browser/src/index.ts:903-910 | the last operation of an open session begins its idle time anew; a closing one has none |
| `BrowserOutcomes.ClosesIff` | packages/browser/src/index.ts:829-832 | the owner's close aims at CLOSED and reaches exactly a session the owner may use |
| `BrowserOutcomes.ExpiresIff` | packages/browser/src/index.ts:943-956 | the idle timer aims at EXPIRED, and closes an open session that is not in use |
| `BrowserOutcomes.StopsDriverIff` | packages/browser/src/index.ts:918-930 | the driver is told to stop exactly when a closing session is no longer in use |
| `BrowserOutcomes.EndsWithState` | packages/browser/src/index.ts:923-941 | a session whose driver stopped and whose state could be written is gone with the state its close aimed at; else it is cleaned up, and FAILED if that could be written |
| `BrowserOutcomes.StopWaitsForStart` | packages/browser/src/index.ts:984-992 | the stop of a driver waits for a start under way |
| `BrowserOutcomes.CleanedIsGone` | packages/browser/src/index.ts:923-941 | a session that has been cleaned up is gone, and no other |
| `BrowserOutcomes.ClosesEverything` | packages/browser/src/index.ts:865-882 | closing everything begins to close each session there is, once, and a close under way keeps its own aim |
| `BrowserOutcomes.EverythingIsClosed` | packages/browser/src/index.ts:865-882 | closing everything is over exactly when none of the sessions it set out to close is left |
| `BrowserOutcomes.ClosedAsAsked` | packages/browser/src/index.ts:829-941 | an unused session that its owner closes and whose driver stops well ends CLOSED and is gone |
| `BrowserBroker.ManagedBrowserBroker.Create` | packages/browser/src/index.ts:794-810 | creates exactly when nothing is being closed altogether and the session limit allows it |
| `BrowserBroker.ManagedBrowserBroker.BeginOperation` | packages/browser/src/index.ts:884-901 | begins exactly on an open, unexpired session of the caller, and counts the operation |
| `BrowserBroker.ManagedBrowserBroker.FinishOperation` | packages/browser/src/index.ts:903-910 | a drain goes on exactly when no operation of the session is left; an open session's idle timer is armed then |
| `BrowserBroker.ManagedBrowserBroker.CloseAll` | packages/browser/src/index.ts:865-877 | every session there is begins to close, whatever the order in which they come |
| `RenderCache.TenantContextRenderCache.Get` | packages/context/src/index.ts:215-220 | a hit returns the held images and becomes the most recent; the cache stays the most recently touched keys in order |
| `RenderCache.TenantContextRenderCache.Put` | packages/context/src/index.ts:222-226 | a held key keeps its place, a new one goes last, and the least recent are dropped |
| `RenderCache.HitKeepsRecency` | packages/context/src/index.ts:218 | moving a hit to the end keeps the most recently touched keys |
| `RenderCache.MissKeepsRecency` | packages/context/src/index.ts:224-225 | appending a new key and dropping from the front keeps the most recently touched keys |
| `RenderCache.KeysCollideOnlyIfEqual` | packages/context/src/index.ts:269-271 | key texts are equal exactly when tenant, model, block and text are, as long as no tenant or model holds a NUL |
| `RenderCache.KeysCollideIff` | packages/context/src/index.ts:269-271 | in general, keys are equal exactly when tenant, model and block joined by NULs are and the texts are equal |
| `RenderCache.ServesOther` | packages/context/src/index.ts:243-265 | for any two jobs that may be rendered, one after the other through an empty cache: the second is served the first one's images exactly when their joined names and their texts agree |
| `RenderCache.SameBlockCollidesIff` | packages/context/src/index.ts:269-271 | in general, the keys of one block are equal exactly when tenant and model joined by a NUL are |
| `RenderCache.ServesAnotherModel` | packages/context/src/index.ts:269-271 | two tenants and models with NULs in their names: the second is served the images rendered for the first |
| `RenderCache.BeginBlock` | packages/context/src/index.ts:247-256 | a block up to the await for its renderer: text, held images, or the await, with the cache's entries as they were |
| `RenderCache.FinishBlock` | packages/context/src/index.ts:256-265 | a block from the renderer's answer on: what it would be without a cache, with at most its own entry written |
| `RenderCache.Compile` | packages/context/src/index.ts:237-266 | the blocks of any number of concurrent compilations, their stretches in any order: every block that is done is what it would be without the cache, a block that has gone on twice is done, and the cache stays faithful and within its limit |
| `AsyncQueue.Queue.Push` | packages/delegated-runtime/src/index.ts:355-360 | an accepted value goes to the taker that waited longest, or to the buffer's end; nothing is accepted after the end |
| `AsyncQueue.Queue.Take` | packages/delegated-runtime/src/index.ts:373-393 | nothing under a signal that has already fired; otherwise the oldest buffered value first, then the failure, then the close, then a place in the line |
| `AsyncQueue.Queue.Fail` | packages/delegated-runtime/src/index.ts:362-366 | rejects everyone who waits, once, and leaves the buffer to be drained |
| `AsyncQueue.Queue.Abort` | packages/delegated-runtime/src/index.ts:380-384 | a taker that aborts leaves the line and no value is lost |

## Left out

- Digests (SHA-256) are taken not to collide: approvals compare what the digest covers, run idempotency the request; cache keys hold a digest that is injective on the texts in play.
- JSON numbers are identified with the text that printing them gives; number parsing and printing are not modelled.
- Schemas are compared as trees where the source compares `JSON.stringify` texts; object keys that JavaScript reorders (array indices) do not occur in them.
- ChildBudgets: modelled on values, the stored runs being a sequence; amounts are reals, so the rounding of sums and comparisons is not modelled; a spawn's checks of provider connection, workspace and session in the store, and the summary events sent to the parent, are not modelled.
- RunQueue: the retries inside the wait for a workspace lease and the service's refusal of runs while shutting down are not modelled.
- RunCancel: told controllers take effect in RunExecution; summary events sent to parents are not modelled.
- RunExecution: a failing event append, telemetry and the run snapshot's contents are not modelled; the agent's own loop is AgentLoop.
- AgentLoop: token counts and cost are reals; messages, steering, session history and context-size accounting are reduced to whether a turn's context fits.
- Approvals: modelled on values but for the methods of ApprovalService; creating the record, the timer and abort handlers and the shutdown wake-up have no method of their own.
- ZonedSchedule: a zone is a function from whole minutes to whole-minute offsets that changes at most once in the window the search can visit; the calendar arithmetic of `Date.UTC` and `Intl` is not modelled.
- ChildBudgets: turns are counted by the turn loop and recorded nowhere, so a parent's own turns are not part of its recorded usage.
- SchedulerEngine: a second creation for one slot is logged as such; that the manager's run service then answers with the run already made (`apps/manager/src/main.ts:1204`) is not modelled.
- SchedulerEngine: engines share one clock; replacing a trigger by `put` while it is claimed is Triggers' alone; an engine's claims may end in any order, where the loop takes them one by one.
- Triggers: triggers bound to a local time of day take their next instant from ZonedSchedule; the in-memory store, whose owner may claim again before its lease expires, and the firings table are not modelled.
- PluginLifecycle: tool registrations, state snapshots, migrations and verification enter as outcomes; failing writes of the lock file and `stop()` are not modelled, while a crash and restart between stretches, and between the debt writes of one, is.
- PluginLifecycle: methods are given for pinning, invoking, enabling, disabling, upgrading, rolling back, uninstalling and releasing at their deciding stretches; the remaining stretches are step functions only.
- McpSupervisor: listing the tools takes the same steps as calling one and is not told apart; tool policies, payload limits and timeouts enter as outcomes; several registrations are independent and one is modelled.
- McpSchema: regular expressions, Ajv and the descriptor checks around the structural check are not modelled.
- BrowserBroker: profiles, uploads, quota accounting and audit records are not modelled; the stretches of a close after its first await are step functions only.
- RenderCache: a renderer is a function of block and model; native labels and the optimization gate are not modelled.
- AsyncQueue: the value `undefined`, which `take` would skip, is not pushed.
- DockerBrowserDriver quotas, rate limits, webhook receipts, token minting and HTTP routing are not modelled: each is a bounded counter, a parser or a table look-up of its own.
