# Verified model of the s17code durable agent runtime

The runtime plans and executes a graph of tasks whose planner is a language model.
Everything it decides is written to a journal per run; money is admitted and metered;
events wake it unattended; documents are cut into chunks by a model; and runs become
traces. This project models that logic in Dafny and proves what it promises.

- **The durable live graph** (`LiveGraph`, `Dag`, `RunOps`, `EventSourcing`,
  `RunInvariants`, `RunHistory`, `GraphStore`, `Deliveries`, `StringOrder`). A checkpoint holds the
  graph and its journal. `RunOps` specifies each store operation on a checkpoint;
  `GraphStore` is the store, a class whose methods carry them out step by step and are
  proved against that specification. `RunHistory` takes any sequence of operations, the
  refused ones included, with a resume after every crash. Each operation ends in one
  atomic replacement of the checkpoint, so a crash falls only between two of them.
  `Deliveries` does the same for a store of many runs and its handle index.
- **The planner boundary and the executor** (`Planner`, `Tiers`, `Quiescence`, `Flight`,
  `Executor`). The model is an arbitrary proposer. `Parse` decides which proposals reach
  the graph; `LiveGraphExecutor` is the loop that launches bounded workers, waits for any
  non-empty set of them to end, records, plans and cancels. What a worker makes of the
  launch journalled at a given place is an arbitrary function, fixed for each executor:
  it returns, defers, raises, or raises a cancellation. Termination, bounds, what became
  of every launch and the state in which the run stops are postconditions of `Run`.
- **The budget controller** (`Reals`, `Pricing`, `Budget`, `Policy`, `Gateway`, `BudgetPlanner`),
  on exact reals. Nothing is held back between admission and charge, so the ceiling is
  exact for one caller and carries a worker term for several; both are proved, and that
  the worker term is attained.
- **Unattended operation** (`EventStore`, `Governor`, `Outbox`). Deduplication that
  outlives compaction; window ceilings under every interleaving of deciders at their two
  awaits, each stretch of code between awaits being one step; at-most-once side effects.
- **Semantic chunking** (`Text`, `Chunking`), driven by a segmenter that may reply
  anything or raise.
- **The span tree and the threshold sweep** (`Spans`, `Pairs`).

## Where the code falls short of what is said of it

Each entry names the lemma that exhibits an input, and the one that gives the exact
condition or, for the ceiling under overlapping calls, the bound that does hold.

- The store alone accepts an edge into a task that has begun:
  `RunInvariants.StoreAcceptsUnsafeEdge`, exact guard `RunInvariants.BegunAfterParentsIff`.
  The planner boundary is what rules it out.
- A task cancelled and deferred by one patch leaves the cancelled state:
  `RunInvariants.CancelledTaskWaits`, exact condition `RunInvariants.CancelSticksIff`.
- An index entry can hide an ambiguous handle that the scan would refuse:
  `GraphStore.IndexHidesAmbiguity`, exact condition `GraphStore.IndexAgreesWithScan`.
- Event keys collide when a source contains a bar: `EventStore.BarsCollide`; a delivery is
  fresh exactly when its key is new, `EventStore.FreshIffFirst`, which without bars means
  that the event is, `EventStore.FirstDeliveryIsFresh`.
- A run's ceiling is passed by overlapping calls: `Gateway.CeilingIsAttained`, with the
  bound that does hold in `Gateway.ConcurrentCeiling`.
- The projection of a call is said to be an upper bound
  (s17code/economics/controller.py:146-151). It prices the tier's own output ceiling, while
  what is sent is the caller's override of it, as for a composed surface
  (s17code/runtime.py:252-258), or without either the client's own: a longer reply passes
  it, `Gateway.OverridePassesProjection` and `Gateway.UncappedPassesProjection`. So do cache
  tokens, `Pricing.CachePassesProjection`, and a reply billed to a dearer model,
  `Pricing.ModelPassesProjection`. Exact condition: `Gateway.ProjectionHoldsIff`. All this
  is within the estimated input; the estimate itself binds nobody,
  `Gateway.InputPassesProjection`, exact condition `Pricing.BoundWithAnyInputIff`.
- A run stops unfinished with nothing active when a patch cancels all that was left and
  adds nothing: `Planner.StallingProposal`, exact condition `Planner.LeavesWorkIff`.
- A worker that raises a cancellation of its own leaves its task running for good, since
  the executor takes it for one it asked for: `Flight.OneStray`. When a run stops
  unfinished, running are exactly the tasks of which this is so and those an unresumed
  earlier process left: `Executor.LiveGraphExecutor.Run`.
- `AgentRuntime.run` returns no `spend_usd` (s17code/runtime.py:498-506), so with the
  runtime as it is a daily budget is never drawn on: `Governor.OneSilentRun`, and for every
  such run `Governor.SilentRunsAreFree`. Exact condition: `Governor.DrawnOnIff`. The window
  theorems are about any runtime, whatever it reports.
- The structural cutter is meant to keep tables whole, but one that opens a block can be
  cut after its first row (s17code/core/memory/chunking.py:143-147), because a search that
  finds nothing yields the start of the document: `Chunking.OpeningTableSplit`, exact
  condition `Chunking.OpeningTableSplitIff`.
- The sweep's grid can run past its upper end, by its tolerance
  (`Pairs.ToleranceOvershoots`) or by its rounding (`Pairs.RoundingOvershoots`): exact
  condition `Pairs.GridStaysInRangeIff`; with six-digit ends and step it does not
  (`Pairs.SixDigitGridStays`).

## Model

| member | source | states |
|---|---|---|
| `Dag.IsDagIffNoCycle` | s17code/core/live_graph/store.py:331-332 | the acyclicity check refuses exactly the graphs that hold a cycle |
| `Dag.GrowKeepsDag` | s17code/core/live_graph/store.py:327-332 | adding tasks with edges only from old tasks into new ones never closes a cycle |
| `RunOps.NoErrorIffAcceptable` | s17code/core/live_graph/store.py:300-332 | the chain of checks raises no error exactly when every stated rule of a patch holds |
| `EventSourcing.ReplayCancels` | s17code/core/live_graph/store.py:333-355 | a run of cancellations replayed strikes the named tasks that exist and no other, so those of tasks added later in the same patch are passed over |
| `EventSourcing.SettleAgrees` | s17code/core/live_graph/store.py:333-355 | task by task, reading the journal back settles a patch as the store does, whichever of its lists name the task |
| `EventSourcing.PatchedRecorded` | s17code/core/live_graph/store.py:293-357 | after any accepted patch, a finishing one included, the journal still folds to the graph although its cancellations precede it |
| `RunHistory.JournalIsTheGraph` | s17code/core/live_graph/store.py:124-380 | in every reachable state node states, results, edges, finished flag and applied triggers are the fold of the journal |
| `RunHistory.StepSound` | s17code/core/live_graph/store.py:137-380 | every operation, accepted or refused, keeps the invariant: journal equals graph, acyclic, one outcome a task, one patch a trigger, idle once finished |
| `RunHistory.PlannedAtMostOnce` | s17code/core/live_graph/store.py:293-299 | over every history with crashes and resumes a trigger has one journalled patch at most and is then recorded as applied |
| `RunHistory.LifePreserves` | s17code/core/live_graph/store.py:150-157 | no later operation takes back a journal entry, an outcome, an applied trigger or a finished graph |
| `RunHistory.LifeSafe` | s17code/core/live_graph/store.py:150-210 | under edges into new tasks only: acyclic, whatever has begun has only succeeded parents, every start in the journal follows the success of each parent |
| `RunHistory.PatchesBounded` | s17code/core/live_graph/store.py:285-299 | at most one planning patch for the start and one for each task |
| `RunHistory.DeliveredAtMostOnce` | s17code/core/live_graph/store.py:228-249 | within one run, over every history, a task is completed by one external delivery at most |
| `RunHistory.SpecsForGood` | s17code/core/live_graph/store.py:327-330 | what a task was asked to do never changes in the life of its run |
| `RunInvariants.PatchedKeeps` | s17code/core/live_graph/store.py:293-357 | an accepted patch for a new trigger keeps the whole invariant |
| `RunInvariants.PatchedSpares` | s17code/core/live_graph/store.py:315-349 | no accepted patch touches a concluded or cancelled task or sets one running |
| `RunInvariants.BegunAfterParentsIff` | s17code/core/live_graph/store.py:300-332 | the exact guard: the store keeps dependency safety if and only if no new edge enters a begun child from a parent that has not succeeded, cancelled running children aside |
| `RunInvariants.StoreAcceptsUnsafeEdge` | s17code/core/live_graph/store.py:300-332 | a concrete patch the store accepts that breaks dependency safety |
| `RunInvariants.CancelSticksIff` | s17code/core/live_graph/store.py:333-349 | a cancelled task stays cancelled if and only if the patch finishes or neither defers nor resumes it |
| `RunInvariants.CancelledTaskWaits` | s17code/core/live_graph/store.py:333-349 | an input: a patch the store accepts cancels and defers one pending task, which ends waiting |
| `RunInvariants.PatchedKeepsSafe` | s17code/planner.py:360-402 | patches whose edges lead into their own tasks keep dependency safety of graph and journal |
| `RunInvariants.MarkedKeeps` | s17code/core/live_graph/store.py:187-197 | launching keeps the invariant, and dependency safety when what is pending is ready |
| `RunInvariants.ConcludedKeeps` | s17code/core/live_graph/store.py:199-210 | recording an outcome keeps the invariant and dependency safety |
| `RunInvariants.ParkedKeeps` | s17code/core/live_graph/store.py:212-226 | deferring a task keeps the invariant and dependency safety |
| `RunInvariants.CompletedKeeps` | s17code/core/live_graph/store.py:228-249 | completing a deferred task keeps the invariant and dependency safety |
| `GraphStore.IndexAgreesWithScan` | s17code/core/live_graph/store.py:251-283 | whatever the handle index holds, a lookup equals the full scan if and only if the run it points at holds no waiter or all of them; one waiter over all runs suffices |
| `GraphStore.IndexHidesAmbiguity` | s17code/core/live_graph/store.py:251-283 | an index entry can hide a second waiter that the scan would have refused as ambiguous |
| `GraphStore.RedeliveryIsNoOp` | s17code/core/live_graph/store.py:228-249 | right after the delivery to the only waiter nobody waits on the handle, whatever the index says |
| `Deliveries.ReceivedAtMostAsParked` | s17code/core/live_graph/store.py:212-283 | over every history of many runs, with the index corrupted at will, a handle is completed no more often than tasks were parked on it: parked once, completed once |
| `Deliveries.AnsweredIsSilent` | s17code/core/live_graph/store.py:228-283 | once every park on a handle has been answered, any delivery on it, through any index, finds nobody and changes no run, until some task is parked on it again |
| `Deliveries.TaleBalances` | s17code/core/live_graph/store.py:212-283 | in every run of every history the completions on a handle and the tasks that still bear a wait on it together number at most the parks on it |
| `GraphStore.Rewrite` | s17code/core/live_graph/store.py:327-357 | the in-place patch, loop by loop, computes the specified new checkpoint: graph, order and journal |
| `GraphStore.SweepFinishes` | s17code/core/live_graph/store.py:333-349 | cancel, wait, resume and the finishing sweep in sequence give the one-step state of every node |
| `GraphStore.FirstReady` | s17code/core/live_graph/store.py:172-185 | ready tasks in identifier order, none passed over within the limit; a limit of zero or less bounds nothing |
| `GraphStore.GraphStore.Start` | s17code/core/live_graph/store.py:137-144 | creates a run once; starting an existing run changes nothing |
| `GraphStore.GraphStore.Resume` | s17code/core/live_graph/store.py:150-157 | interrupted tasks become pending again, everything else stays; an unknown run is an error |
| `GraphStore.GraphStore.MarkRunning` | s17code/core/live_graph/store.py:187-197 | marks exactly the pending tasks named; an unknown task changes nothing |
| `GraphStore.GraphStore.RecordOutcome` | s17code/core/live_graph/store.py:199-210 | succeeds exactly for a running task, and returns the place of the outcome it journals |
| `GraphStore.GraphStore.RecordWaiting` | s17code/core/live_graph/store.py:212-226 | succeeds exactly for a running task; journals the wait and indexes its handle |
| `GraphStore.GraphStore.Scan` | s17code/core/live_graph/store.py:254-270 | finds exactly the tasks waiting on a handle among the given runs |
| `GraphStore.GraphStore.FindWaiting` | s17code/core/live_graph/store.py:251-283 | answers what the index or, failing it, the full scan says, and repairs the index |
| `GraphStore.GraphStore.CompleteWaiting` | s17code/core/live_graph/store.py:228-249 | completes the single waiter of a handle; none or several change no run |
| `GraphStore.GraphStore.PendingPlannerEvents` | s17code/core/live_graph/store.py:285-291 | exactly the planner events with no applied patch, in order |
| `GraphStore.GraphStore.ApplyPatch` | s17code/core/live_graph/store.py:293-357 | a trigger applied before changes nothing; otherwise the patch is applied whole or refused whole with the stated error |
| `StringOrder.SortedUnique` | s17code/core/live_graph/store.py:164-170 | sorting identifiers has one possible result, so snapshots and ready lists are determined |
| `Planner.Parse` | s17code/planner.py:291-432 | the boundary loop computes the specified verdict on every proposal, errors included |
| `Planner.ParsedIsFrontiered` | s17code/planner.py:291-432 | every accepted patch adds new tasks only, joins them to live parents only, never cancels a running task, keeps the node limits, repeats no active call and no answered one unless rerunnable, and adds or finishes when nothing is active |
| `Planner.ParsedIsFair` | s17code/planner.py:301-416 | an accepted patch takes every proposed call it has no stated reason to leave out, and nothing that was not proposed |
| `Planner.FrontieredIsAcceptable` | s17code/planner.py:291-432 | refinement: what the boundary lets through, the store accepts without error |
| `Planner.LeavesWorkIff` | s17code/planner.py:403-432 | a patch leaves work if and only if it finishes, adds, or spares an active task |
| `Planner.StallingProposal` | s17code/planner.py:291-432 | an input: a proposal the boundary accepts cancels the last active task and leaves an unfinished graph with nothing active |
| `Planner.GeneralAgentPlanner.Plan` | s17code/planner.py:104-214 | whatever the model replies, a round ends after its repair attempts in a patch of the accepted shape, finishing at the node limit; without a terminal review it cannot fail |
| `Tiers.DeclaringKeepsTheGraph` | s17code/economics/tiers.py:137-165 | stamping tiers changes no identifier, skill, input or side-effect mark, stamps every task, and keeps a tier asked for |
| `Tiers.DeclareTiers` | s17code/economics/tiers.py:137-165 | the stamping loop leaves everything but the added tasks alone |
| `Tiers.FromMapping` | s17code/economics/tiers.py:54-92 | reading a configuration raises exactly for no tiers or an unknown default; a repeated name keeps its last row; what is read is a well-formed ladder exactly when no name repeats |
| `Tiers.LookupsStayOnLadder` | s17code/economics/tiers.py:110-122 | every lookup by name or role, unknown ones included, returns a rung of the ladder |
| `Quiescence.PendingIsBlocked` | s17code/core/live_graph/store.py:172-185 | with nothing ready, every pending task has a waiting, failed or cancelled ancestor, or a stray one, reached through pending tasks only |
| `Quiescence.PatchedPays` | s17code/core/live_graph/core.py:130-186 | a planning patch never raises the work measured by more than three for each task it adds, and an unborn task counts four: so it never raises the measure, and lowers it by one at least for each task it adds |
| `Quiescence.MarkedLowers` | s17code/core/live_graph/core.py:134-145 | launching lowers the work by two for each task, and marks those tasks only |
| `Quiescence.UnplannedPatched` | s17code/core/live_graph/store.py:285-299 | a patch removes its own trigger, and no other, from what is still to be planned |
| `Flight.LaunchCouples` | s17code/core/live_graph/core.py:134-145 | launching keeps running tasks and in-flight tasks in step; no task is launched twice |
| `Flight.PatchCouples` | s17code/core/live_graph/core.py:197-212 | a patch can touch a running task only by cancelling it, so the coupling survives any patch the planner boundary lets through |
| `Flight.EndCouples` | s17code/core/live_graph/core.py:151-176 | an ended task leaves flight and running together and will not run again |
| `Flight.HeldLaunch` | s17code/core/live_graph/core.py:134-145 | a launch keeps the whole account of a run in progress: who flies, why anything else runs, what became of each start in the journal, and how many were ever busy |
| `Flight.HeldEnd` | s17code/core/live_graph/core.py:151-186 | recording what a worker returned, raised or deferred keeps that account |
| `Flight.HeldPatch` | s17code/core/live_graph/core.py:197-219 | so does any patch that cancels no running task, as none the planner boundary lets through does |
| `Flight.Landed` | s17code/core/live_graph/core.py:151-186 | with nothing in flight, every start has come to the event its ending calls for, or the finishing patch cancelled it, or it is running for good; and running are exactly the strays |
| `Flight.Stopped` | s17code/core/live_graph/core.py:111-186 | with nothing ready or unplanned besides, the run is quiescent up to exactly the strays |
| `Flight.OneStray` | s17code/core/live_graph/core.py:160-168 | an input: a worker that raises a cancellation of its own leaves its task running in a run that has stopped |
| `Executor.LiveGraphExecutor.Run` | s17code/core/live_graph/core.py:111-186 | ends, with a report unless the process dies or a review call raises; each task executed once, and reported in journal order; nodes and patches bounded by the node limit, or by what the checkpoint held if that was more; an earlier checkpoint preserved; never more workers busy than the limit, not counting those that go on to raise a cancellation of their own, which only the step contracts bound; every launch came to what its worker made of it; stopping unfinished means nothing unplanned, every pending task blocked by a waiting, failed or cancelled ancestor or a stray, and running if and only if its worker raised a cancellation of its own or it was left over unresumed - so nothing running when no worker does and none was |
| `Executor.LiveGraphExecutor.Turn` | s17code/core/live_graph/core.py:130-186 | one turn keeps the account of who runs and why, stops only with nothing in flight and nothing ready, and otherwise lowers the measure |
| `Executor.LiveGraphExecutor.Collect` | s17code/core/live_graph/core.py:151-176 | a late result of a cancelled task writes nothing; a result, failure or deferral of a running task is journalled as such, and planned; a cancellation the worker raised itself writes nothing and strands the task |
| `Executor.LiveGraphExecutor.LaunchReady` | s17code/core/live_graph/core.py:134-145 | launches ready tasks, none twice, never beyond the limit, and leaves a slot free only when nothing ready is left |
| `Executor.LiveGraphExecutor.ReplayPending` | s17code/core/live_graph/core.py:221-225 | plans every outcome an earlier process left unplanned, and nothing else |
| `Executor.LiveGraphExecutor.PlanFor` | s17code/core/live_graph/core.py:214-219 | a planned trigger is applied to the store without error; a failure changes no run |
| `Pricing.PrefixPricing` | s17code/economics/pricing.py:51-63 | an unknown model is priced by the longest configured prefix of its name |
| `Pricing.ProjectionBounds` | s17code/economics/pricing.py:69-92 | a usage with no more input and output than projected and no cache tokens costs at most the projection of the same model |
| `Pricing.BoundWithoutCacheIff` | s17code/economics/controller.py:143-165 | the exact condition without cache tokens: no reply within the estimated input and the output ceiling sent passes the projection if and only if the largest such reply, at the price of the model billed, does not |
| `Pricing.BoundWithCacheIff` | s17code/economics/controller.py:143-165 | the exact condition with any cache tokens: that, and the billed model charges nothing for them |
| `Pricing.BoundWithAnyInputIff` | s17code/economics/policy.py:107-118 | the input half is an estimate: over replies with any input the projection is a bound if and only if, besides, input is free |
| `Pricing.CeilingSentIff` | s17code/economics/tiers.py:128-130 | for one model whose output has a price: the ceiling sent must be no higher than the one priced |
| `Pricing.CachePassesProjection` | s17code/economics/controller.py:143-151 | an input: one cached token passes a projection of nothing |
| `Pricing.ModelPassesProjection` | s17code/economics/controller.py:143-151 | an input: the reply of a dearer model passes the projection |
| `Pricing.CostNonNegative` | s17code/economics/pricing.py:69-92 | no usage, negative counts included, has a negative cost |
| `Budget.AllocationConserves` | s17code/economics/budget.py:123-136 | the shares of any frontier add up to exactly the spendable remainder, none negative, and stay within what remains |
| `Budget.ChargedBalanced` | s17code/economics/budget.py:169-217 | spending equals the sum of charges and per-node counts the charges of the node, after every charge |
| `Budget.RunBudget.Allocate` | s17code/economics/budget.py:123-136 | replaces all reservations by the distinct frontier's shares |
| `Budget.RunBudget.ChargeCall` | s17code/economics/budget.py:169-217 | adds one charge at the priced cost; nothing else moves spending |
| `Policy.AdmitsIsCanAdmit` | s17code/economics/budget.py:144-154 | the decision's admission test is the budget's own, error included |
| `Policy.Judge` | s17code/economics/policy.py:140-233 | the ladder walk computes the specified decision |
| `Policy.MostCapableThatFits` | s17code/economics/policy.py:140-233 | short of the ceilings the decision is the most capable fitting rung at or below the starting one; branch, downgrade and refusal exactly when stated |
| `Policy.DecideIsMonotone` | s17code/economics/policy.py:140-233 | less spent, all else equal, never costs capability and never turns admission into refusal |
| `Policy.BranchAlwaysAdmits` | s17code/economics/controller.py:108-141 | after a branch, dropping the slice and deciding again always admits |
| `Policy.RebasedIsMonotone` | s17code/economics/controller.py:108-141 | the decision after rebasing is monotone in spending too |
| `Gateway.AdmissionIsBounded` | s17code/economics/policy.py:164-197 | an admission projects within the remainder less headroom and with calls left under both ceilings |
| `Gateway.BudgetedGateway.DecideFor` | s17code/economics/controller.py:108-141 | decides, and on a branch releases the slice and decides again |
| `Gateway.BudgetedGateway.Complete` | s17code/economics/controller.py:143-204 | every response is charged at the price of the model billed, a refusal reaches no provider and costs nothing; what is projected is the tier decided on, what is sent is its request with the caller's overrides; the decision noted is the rebased one, the ledger after the call is the stated function of the one before, with the same total, and a call within its projection keeps spending within it |
| `Gateway.ProjectionHoldsIff` | s17code/economics/controller.py:143-165 | exactly when the projection of a call bounds its cost, with the caller's overrides: the largest reply the ceiling sent allows, at the model billed, is no dearer than the one priced, and cache tokens are free if any occur; for the tier's own model, where output has a price, the ceiling sent must be no higher than the one priced |
| `Gateway.OverridePassesProjection` | s17code/runtime.py:252-258 | an input: a caller that overrides the ceiling to 4000 over a tier of 1024 |
| `Gateway.UncappedPassesProjection` | s17code/gateway.py:32-48 | an input: a tier without a ceiling, sent with the client's own 1600 |
| `Gateway.InputPassesProjection` | s17code/economics/policy.py:107-118 | an input: a prompt longer than its estimate |
| `Gateway.MeteredTransport.Chat` | s17code/economics/controller.py:238-250 | counts each attempt once, as a call or as a failure |
| `Gateway.ConcurrentCeiling` | s17code/economics/controller.py:143-204 | with W overlapping calls projected at most P: spending plus in-flight projections within total + (W-1)P, calls within ceiling + W-1, exact for one worker; spending is the sum of charges |
| `Gateway.CeilingIsAttained` | s17code/economics/controller.py:153-186 | the worker term cannot be dropped: a run of admitted calls that spends W times the whole total |
| `Gateway.GateKeepsSafe` | s17code/economics/controller.py:108-204 | each admission, reply, failure, re-allocation and release keeps both ceilings |
| `Gateway.AskingIsAdmission` | s17code/economics/controller.py:108-165 | an admitted `DecideFor` takes the admission step of the concurrent machine, rebasing included |
| `Gateway.SettlingIsStep` | s17code/economics/controller.py:166-204 | what `Complete` leaves behind is a reply, decline or failure step of that machine |
| `BudgetPlanner.FrontierIsWhatMaySpend` | s17code/economics/policy.py:273-286 | money is set aside for exactly the tasks active once the patch has been applied |
| `BudgetPlanner.BudgetAwarePlanner.Plan` | s17code/economics/policy.py:258-271 | the inner patch, stamped, keeps its shape; the budget is divided over its frontier and nothing is spent |
| `EventStore.FreshIffFirst` | s17code/events/store.py:134-154 | a delivery is fresh if and only if no earlier one had its key, over every history with compaction and with restarts that change the limit |
| `EventStore.FreshAtMostOnce` | s17code/events/store.py:134-154 | the same event is fresh at most once, whatever the limits |
| `EventStore.FirstDeliveryIsFresh` | s17code/events/store.py:46-47 | with no bar in any source a first delivery is always fresh |
| `EventStore.BarsCollide` | s17code/events/store.py:46-47 | with a bar in a source two different events share a key and the second is dropped |
| `EventStore.IngestedRemembers` | s17code/events/store.py:108-154 | after each ingest, under any limit, the bodies kept are the last accepted ones, numbered consecutively, the boundary marks the gap, and the index maps every accepted key to its number |
| `EventStore.AlwaysRemembers` | s17code/events/store.py:75-154 | that holds after every history of deliveries and restarts, the limit read anew at each |
| `EventStore.OneLimitKeeps` | s17code/events/store.py:108-117 | under one limit for good, the bodies kept are the last min(n, limit) of the n accepted |
| `EventStore.MigrationRemembers` | s17code/events/store.py:75-88 | an old history that kept every body, however many, loses nothing in migration |
| `EventStore.CompactedKeeps` | s17code/events/store.py:108-117 | by however much the limit has shrunk, compaction keeps the newest bodies within it with their numbers, moves the boundary just below them, and forgets no identity |
| `EventStore.EventStore.Ingest` | s17code/events/store.py:134-154 | a new event is persisted with the next number, a known one changes nothing |
| `EventStore.EventStore.AddDecision` | s17code/events/store.py:156-173 | a decision is filed once per subscription, or noted openly when its body is gone |
| `EventStore.EventStore.WindowReserve` | s17code/events/store.py:211-236 | checks the ceiling and claims the slot in one step; a full window is left as it is |
| `EventStore.EventStore.WindowRecord` | s17code/events/store.py:201-209 | adds to one window and touches no other |
| `Governor.TriageStep` | s17code/events/governor.py:101-115 | a window's triage spending and what the triage calls in flight may still cost stay within its budget and one dearest call for each decider, through every atomic step of any of them |
| `Governor.AutonomyGovernor.AdmitRun` | s17code/events/governor.py:118-161 | claims the slot as it admits; a refusal for money claims none |
| `Governor.WindowsHold` | s17code/events/engine.py:86-154 | under every interleaving of deciders at their awaits the three ceilings of every window hold at every moment |
| `Governor.WindowCeilings` | s17code/events/engine.py:86-154 | runs started per subscription and day within their limit and equal to the stored count; spend within the daily budget plus (slots-1) largest runs; triage within its budget plus one call per slot |
| `Governor.RunsStep` | s17code/events/governor.py:118-161 | each atomic step keeps the run ceiling and the count |
| `Governor.SpendStep` | s17code/events/engine.py:126-154 | each atomic step keeps spend and promises within the bound |
| `Governor.WindowIsReported` | s17code/events/engine.py:147-154 | in every interleaving the money in a run window is exactly the sum of what the runs of that window have reported |
| `Governor.DrawnOnIff` | s17code/events/engine.py:147-154 | exactly when a window is drawn on: some run of it has reported a spend; exactly when a run is refused for money: the reports have reached the daily budget |
| `Governor.SilentRunsAreFree` | s17code/runtime.py:498-506 | in every interleaving whose runs report no spend the daily window stays at zero and no run is refused for money |
| `Governor.OneSilentRun` | s17code/runtime.py:498-506 | an input: a run is handed its budget, finishes and reports nothing |
| `Governor.AutonomousEventEngine.BeginTriage` | s17code/events/engine.py:86-112 | the code up to the first await is the machine's entry step, or changes nothing |
| `Governor.AutonomousEventEngine.JudgeReply` | s17code/events/engine.py:113-136 | the code between the awaits is the machine's judging step |
| `Governor.AutonomousEventEngine.FinishRun` | s17code/events/engine.py:147-154 | the code after the run is the machine's finishing step |
| `Outbox.DecodeUndoesEncode` | s17code/events/outbox.py:43-54 | every receipt reads back as what was written |
| `Outbox.InvokedAtMostOnce` | s17code/events/outbox.py:56-78 | over every history of calls, failures, cancellations and crashes an operation is invoked once at most |
| `Outbox.OneReceiptEach` | s17code/events/outbox.py:56-78 | every receipt a key ever yields is the same |
| `Outbox.SettledForGood` | s17code/events/outbox.py:56-78 | a completed or failed key keeps its record for good |
| `Outbox.ActsAtMostOnce` | s17code/runtime.py:465-476 | over every joint history of a run and the outbox it shares with others, crashes and resumes included, a task is invoked at most once, only after it was launched, and as its one specification says |
| `Outbox.ActionOutbox.Execute` | s17code/events/outbox.py:56-78 | runs the operation exactly when its key is unknown; each way it can end leaves its record |
| `Text.RFindSuffix` | s17code/core/memory/chunking.py:217-219 | the last occurrence of a suffix is the suffix itself |
| `Chunking.StructuralEnd` | s17code/core/memory/chunking.py:128-151 | the backwards table loop and the heading and fence cuts compute the specified block end, after the start and at most the nominal end |
| `Chunking.CutsBetweenLines` | s17code/core/memory/chunking.py:128-151 | a cut short of the word budget always falls between two lines |
| `Chunking.OpeningTableSplitIff` | s17code/core/memory/chunking.py:128-151 | a table that opens a block is cut after its first row if and only if no heading or fence cut applies and the text before its second row does not begin with a bar; otherwise, failing those cuts, the block runs to its nominal end |
| `Chunking.OpeningTableSplit` | s17code/core/memory/chunking.py:143-147 | an input on which it is |
| `Chunking.NextBlock` | s17code/core/memory/chunking.py:187-195 | a block makes progress, ends in the middle of no word, and holds at most the word budget |
| `Chunking.Decide` | s17code/core/memory/chunking.py:216-237 | a verbatim proper suffix splits its block just there; anything else keeps the block, with the stated outcome |
| `Chunking.SemanticChunks` | s17code/core/memory/chunking.py:181-249 | whatever the segmenter does the loop ends; spans are ordered and disjoint, cover every visible character, each text is its span stripped, within the word budget, with exact word numbers |
| `Chunking.NothingLost` | s17code/core/memory/chunking.py:181-249 | end to end the chunks show exactly what the document shows |
| `Spans.BuildSpanTree` | s17code/telemetry/spans.py:146-426 | every metered call becomes exactly one provider-call span, in journal order and in its place; the root's cost is their sum; intervals nest; call spans keep the meter's times |
| `Spans.TraceBuilder.Step` | s17code/telemetry/spans.py:242-417 | one event adds the spans it calls for, bills its calls and keeps the bookkeeping of rounds, homes and open tasks |
| `Spans.TraceBuilder.OnPatched` | s17code/telemetry/spans.py:248-315 | a planning round, its plan and its calls; its tasks now belong to it |
| `Spans.TraceBuilder.OnEnded` | s17code/telemetry/spans.py:342-417 | an end bills its calls below the span its start opened, or one made for it, and leaves the task no longer open |
| `Spans.TraceBuilder.SpanOfEnd` | s17code/telemetry/spans.py:342-360 | the span of an end is the one its start opened, or a new one in the task's round, and it now ends with the event |
| `Spans.TraceBuilder.ResolveTimes` | s17code/telemetry/spans.py:115-131 | in place: the whole subtree is settled and nested, the rest of the table untouched, the span's own bounds as stated |
| `Spans.NestedInAncestors` | s17code/telemetry/spans.py:115-131 | a span nested in its parent everywhere is nested in all its ancestors |
| `Spans.WalkOnce` | s17code/telemetry/spans.py:133-136 | the walk from a span meets each of its descendants exactly once and nothing else |
| `Pairs.Sweep` | s17code/evals/pairs.py:210-229 | the counting loops compute the confusion matrix at each threshold |
| `Pairs.CountsPartition` | s17code/evals/pairs.py:154-170 | the four counts part the set by label at every threshold |
| `Pairs.SweepIsMonotone` | s17code/evals/pairs.py:210-229 | a higher threshold never admits more of either label |
| `Pairs.SeparableIffSomeSafe` | s17code/evals/pairs.py:232-253 | the verdict holds if and only if both labels occur and some threshold admits every positive and no negative |
| `Pairs.BestOperating` | s17code/evals/pairs.py:285-302 | the point chosen is at least as good as every eligible one in the stated order |
| `Pairs.BestIsSafest` | s17code/evals/pairs.py:285-302 | if any threshold of the grid admits no negative, the best admits none, catches as many positives as any such, and is the strictest doing so |
| `Pairs.SeparableMakesPerfect` | s17code/evals/pairs.py:232-302 | on a separable set a grid reaching between the labels makes the best point perfect |
| `Pairs.SteepestFprDrop` | s17code/evals/pairs.py:256-282 | the step found falls at least as far as any, and of equals has the lowest threshold |
| `Pairs.FlatIffNothingChanges` | s17code/evals/pairs.py:256-282 | on a rising grid the steepest fall is no fall exactly when the collision count never changes |
| `Pairs.GridStaysInRangeIff` | s17code/evals/pairs.py:194-207 | the grid, rounded to six digits, starts at the rounded low end and never falls; it stays within the high end if and only if its last step, before rounding, lands within it |
| `Pairs.SixDigitGridStays` | s17code/evals/pairs.py:194-207 | for ends and step of six digits and a step below 1000 it is exact and stays in range |
| `Pairs.ToleranceOvershoots` | s17code/evals/pairs.py:194-207 | an input on which the tolerance buys a step past the high end |
| `Pairs.RoundingOvershoots` | s17code/evals/pairs.py:194-207 | an input on which the rounding alone passes it |

## Left out

- HTTP, authentication, the gateway client, tool and model calls, channels: replies, results and failures are arbitrary values.
- JSON text, file names, hashing, fsync and temporary files: each save replaces the state at once, and digests are taken to be injective.
- The internals of the graph library: acyclicity is modelled by peeling off sources, and proved to mean that there is no cycle.
- Prompts, the repair of malformed JSON and the normalisation of wire shapes (s17code/planner.py:239-290): the model starts from decoded fields, a field of the wrong type being absent and an unreadable envelope an error.
- `_stuck_verification` reads results the model does not interpret: either answer may come.
- The `max_completed` stop of the executor, wall clocks and asyncio scheduling beyond "some non-empty set of in-flight tasks ends".
- Keys of `patch.metadata` are assumed not to shadow the fields of the patch event, and external events not to use a reserved kind (s17code/core/live_graph/store.py:350-353, 374-380).
- One executor per run, and no external completion arriving in the middle of a run, for the claims about how a run stops; a snapshot is taken at one moment.
- Floating-point rounding, in money, in the window ledger and in reports: amounts are exact reals. The six-digit rounding of `thresholds` is modelled, on decimals.
- Gateway.ConcurrentCeiling: takes "a call costs at most its projection" as a hypothesis of its reply step; `Gateway.ProjectionHoldsIff` says when that is so for a reply within the estimated input and the ceiling sent.
- Gateway.MeteredTransport.Chat: a provider is not held to the ceiling it is sent, nor to the model; of a request only the model and the ceiling are kept, the rest having no bearing on cost.
- Gateway.AdmissionIsBounded: assumes a headroom that is not negative and prices that are not negative, which the configuration does not check.
- Ladders in which a rung name repeats: `Tiers.FromMapping` reads them as the code does, and the results of the budget controller assume a ladder without.
- Executor.LiveGraphExecutor.Run: a worker result that JSON cannot hold makes the save raise in the code; results here are text, so no save fails. Its bound on busy workers leaves out those that go on to raise a cancellation of their own, whose end the journal does not show.
- Governor.WindowCeilings: the subscriptions are fixed over an interleaving, while the store may have them rewritten during a day; it assumes that a run spends at most the budget it was handed, and that limits are positive where set, as the subscription model demands.
- Governor.AutonomousEventEngine.JudgeReply: filing the decision with its event is `EventStore.AddDecision` and is not repeated in the engine's steps.
- `admit_event` with its rate limit and self-caused actors, liveness, the cut of the refusal log, subscriptions' own storage.
- EventStore.MigrationRemembers: speaks of old histories that kept every body; one already cut has lost identities that nothing can restore.
- Outbox: an empty or foreign receipt file reads as an error; deleting records by hand is outside the model.
- Chunking.SemanticChunks: a word budget below zero is not modelled; of a budget of zero it claims everything but the word limit.
- `prepare_markdown`, the heading fallback segmenter, `_heading` and the neighbour ordinals of a chunk, embeddings.
- The heading and fence finders follow the patterns for the characters modelled in `Text`; wider Unicode whitespace is a fixed list.
- Spans.BuildSpanTree: span nodes are rows of one table, updated in place, rather than objects; attributes other than kind, name, call and origin, and the budget events on spans, are not modelled.
- Spans.TraceBuilder.OnEnded: the outcome a task's span is labelled with is not modelled, and over whole journals its end is claimed only to contain its calls.
- Export to OpenTelemetry, the A2A servers, the UI, skills, workspace guards, the reasoning loop, leases, reports, `load_pairs`, `by_family`.
