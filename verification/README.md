# Workflow platform: a verified model

A Dafny 4.11 model of the integration platform's hardest parts, with proofs of what they promise.
`dafny verify dfyconfig.toml` checks everything. Nothing here calls the platform's own code.

**Nested paths and mapping rules.** `NestedPath` gives the meaning of reading and writing JSON trees through keys such
as `orders[].items[].sku`; `KeyStrings` has the strings such paths are written as; `NestedPathCode` proves the
string-level walkers against it; `NestedPathLaws` has the lens, frame and commutation laws; `FieldMapping` and
`MappingCode` the two mapping loops. A write returns a new tree, so a dictionary changed in place is the value before
and after.

**The workflow interpreter.** `WorkflowGraph` is the graph and its adjacency index. `WorkflowEngine` says what every
executor does: to the context nodes read (`View`), to the node results, to the connector calls, to the chain of
sub-workflows. Every connector call and every other computation inside one node is an oracle, `World.leaf`, that may
answer from the whole history of calls, and may fail; which running item of a concurrent batch completes next is an
oracle too, `World.order`. `WorkflowExecutor` is the engine itself: classes whose fields are updated step by step,
including the result dictionaries that are appended more than once and changed later; each method is proved equal to
the interpreter. About the interpreter, first what its parts mean in the engine's own terms, edge by edge
(`WorkflowGraph`), entry by entry (`ContextLaws`), item by item (`ItemLaws`) and node by node (`NodeLaws`); then
termination and the cycles that break it (`UnguardedCalls`), what two runs have in common (`RunModes`, `EngineReplay`),
re-runs (`EngineBlocks`, `RerunDiffers`), failure containment (`EngineContainment`), the depth limit (`EngineDepth`),
the record of calls and sub-workflow chains (`EngineRecords`), causality (`EngineCausality`), routing
(`EngineRouting`), and every interleaving of batch items and parallel branches (`Scheduler`).

**The sync ledger.** `SyncLedger` is the table and the fold that a history of outcomes and maintenance leaves;
`SyncProtocol` is the protocol of concurrent transactions with row locks, uncommitted inserts, the unique key, commits
and rollbacks.

**Bounded machines.** `TokenBuckets`, `SlidingWindow`, `CircuitBreaker`, `OfflineQueue`, `VersionHistory`.

## Where the code differs from what it says

- `platform/core/sync_state.py:332` says reset rows are retried; a reset row is pending, and a check skips pending
  rows. `SyncProtocol.WhatFollows` proves that no incremental job ever runs for it again until the ledger is cleared.
- A failed row that has used up its retries still runs while its content is unchanged (`SyncLedger.WhatRunsAgain`).
- `platform/middleware/rate_limiter.py:67` converts a list to a number for every refused request; the error is caught,
  and the answer is 503 instead of the intended 429 (`SlidingWindow.Reply`).
- Requests with equal timestamps are one member of the sorted set, so any number of them is admitted
  (`SlidingWindow.SameTimeIsCountedOnce`).
- A 5xx reply to the last attempt closes the circuit breaker and clears the failures of the attempts before it
  (`CircuitBreaker.LastServerErrorIsASuccess`; `WhenServerErrorsAreRefused` has the condition under which a request
  does not get that far), and the half-open state has no effect a request could observe (`CircuitBreaker.PassesExactly`).
- A check divides by zero if and only if the rate limit is no requests (`TokenBuckets.NoRequestsDivideByZero`).
- `retry_after` is rounded to hundredths, and may be rounded below the time a token takes: with three requests a second
  the wait is 0.33 seconds, after which 0.99 tokens are there (`TokenBuckets.WaitingCanBeTooShort`). Waiting is enough
  if and only if the time needed is at most a tenth of a second or is not rounded down (`WaitingIsEnough`).
- Writing through adjacent brackets, as in `a[][]`, succeeds and stores nothing
  (`NestedPathLaws.AdjacentBracketsAreNotStored`).
- The engine and the mapping resolver read list rows differently (`MappingCode.ReadersDisagreeOnListRows`).
- A re-run from the trigger node never reproduces the trigger's result (`RerunDiffers.RerunFromTriggerDiffers`).
- A re-run of a dry run is live (`platform/core/workflow_engine.py:1744` against `platform/api/gateway.py:3355-3363`),
  and actions, thinks, HTTP requests and error handlers read dry-run mode (lines 459, 509, 782 and 986). A re-run from
  a node that a dry run answered with a mock never repeats it (`RerunDiffers.DryRunShows`, with one such workflow in
  `DryRunOfAnAction`). Where no node that can be reached reads the mode, it does (`EngineBlocks.RerunReplaysBlock`).
- A re-run of a sub-workflow's execution is not in the chain of its parents (line 1745). From a sub-workflow node whose
  check came out differently in that chain it never repeats the original (`RerunDiffers.ChainShows`, with such
  workflows in `RerunEntersTheParent`). Where every check that can be reached comes out alike, it does, and
  `RunModes.ChainAboveUnnoticed` has a condition on the workflows for that.
- The results of the items of a concurrent batch come in the order in which the items complete (line 1110), which two
  runs need not share (`EngineReplay.EitherMayCompleteFirst`), so a re-run reproduces them up to that order.
- With `on_error` "continue" a workflow can still fail, at the depth limit, because a continued node runs its
  successors outside the block that would catch them. `EngineDepth.ContinuingCycleFails` is a workflow that always
  fails so: a node that follows itself. `ContinuingFailsExactlyOnLongWalks` has the exact condition on the graph for
  workflows of nodes that all go on, and `LenientLayersSucceed` a condition under which none fails.
- Concurrent updates of different parts of a workflow leave a row that no version describes
  (`VersionHistory.ConcurrentUpdatesMix`), and a forced run can overlap another one of the same entity
  (`SyncProtocol.ForcedExecutionsCanOverlap`).

## Model

| member | source | states |
|---|---|---|
| NestedPathCode.GetNested | platform/core/workflow_engine.py:2228-2243 | the dotted walker with numeric list indices and brackets reads what `GetPath` reads at the parsed key |
| NestedPathCode.GetNestedArray | platform/core/workflow_engine.py:2246-2266 | the bracket reader, recursive over every `[]`, reads what `GetPath` reads |
| NestedPathCode.SetNested | platform/core/workflow_engine.py:2269-2290 | the in-place writer, its intermediate dictionaries and its `TypeError`s are those of `SetPath` at the parsed key; a write that joins is described by the reads before and after it |
| NestedPathCode.SetNestedArray | platform/core/workflow_engine.py:2293-2334 | the bracket writer pads the list, replaces rows that are not dictionaries and writes each element, as `SetPath` does |
| NestedPathCode.Pad | platform/core/workflow_engine.py:2325-2326 | padding keeps the existing rows and adds as many empty ones as are missing |
| KeyStrings.ParseRender | platform/core/workflow_engine.py:2228-2266 | parsing the key string of a path gives the path back, for paths whose keys have no dot or bracket |
| KeyStrings.IndexReads | platform/core/workflow_engine.py:2237-2241 | a list reads by the decimal index of an element, and by a negative one from the end |
| NestedPathLaws.GetAfterSet | platform/core/workflow_engine.py:2246-2334 | reading any single element after a write, on every tree: elements of the value are found at their own indices, and any other reads as before if and only if it was not lost with a list row that the write replaced by a dictionary |
| NestedPathLaws.ReadBack | platform/core/workflow_engine.py:2246-2334 | a whole read after a write gives the value if and only if it is nested like the path and no list already there is longer |
| NestedPathLaws.JoiningWrite | platform/core/workflow_engine.py:2278-2290 | after a joining write, a list that was at the key goes on with the value or its items, anything else there follows the value in one text, and a free key has the value |
| NestedPathLaws.Unwritable | platform/core/workflow_engine.py:2303-2334 | a path with brackets that do not follow a key is never stored: an element reads as before if and only if it was not lost with a replaced list row |
| NestedPathLaws.AdjacentBracketsAreNotStored | platform/core/workflow_engine.py:2303-2334 | `a[][]` reads a list of lists but a write through it stores only an empty row |
| NestedPathLaws.FrameAt | platform/core/workflow_engine.py:2228-2334 | a write changes an element that a diverging path addresses if and only if the element is lost with a list row that the write replaces, in either mode, on every tree |
| NestedPathLaws.Frame | platform/core/workflow_engine.py:2228-2334 | the whole read of a diverging path is unchanged if and only if the write neither creates nor lengthens a list both go through, nor replaces a list row there that reads unlike a fresh one |
| NestedPathLaws.LongerColumnChangesItsSibling | platform/core/workflow_engine.py:2325-2326 | a concrete write that adds a row to a sibling column |
| NestedPathLaws.Commute | platform/core/workflow_engine.py:2269-2334 | writes at diverging paths commute on every tree, values and errors included |
| FieldMapping.OrderDoesNotMatter | platform/core/workflow_engine.py:1243-1275 | writes with pairwise diverging targets give the same tree, or raise, in every order |
| FieldMapping.TargetsReadBack | platform/core/workflow_engine.py:1243-1275 | such rules never raise and never join, and every target reads back its own rule's value |
| FieldMapping.LastWriterWins | platform/core/mapping_resolver.py:116-153 | a rule that diverges from all later ones is what its target reads, whatever came before |
| FieldMapping.TargetJoins | platform/core/workflow_engine.py:2278-2290 | if all other rules write elsewhere, a top-level target holds the values of its own rules: one as it is, several collected in a first list or joined into one text, the last first |
| FieldMapping.ColumnsZip | platform/core/workflow_engine.py:2293-2334 | column rules of equal length build the list of zipped rows |
| MappingCode.ApplyFieldMapping | platform/core/workflow_engine.py:1238-1299 | the engine's mapping loop is the fold of its writes; with diverging targets it does not raise and collects no extra text |
| MappingCode.StoreValue | platform/core/workflow_engine.py:1268-1274 | one value is stored joining, and collected too if it is a scalar for a taken `body_text` or `subject` |
| MappingCode.RulesToOneTargetJoin | platform/core/workflow_engine.py:1243-1274 | several rules to one plain key leave their values there, joined in rule order, whatever other rules write elsewhere |
| MappingCode.RulesPerform | platform/core/workflow_engine.py:1243-1270 | exactly the rules with a target, custom or not, and a value write, in rule order |
| MappingCode.WhatARuleStores | platform/core/workflow_engine.py:1253-1266 | without transforms a rule stores the value of its one source, a custom value, or the texts of several sources one space apart, without those that are `None` |
| MappingCode.PipeRuns | platform/core/workflow_engine.py:1256-1261 | the first transform is given all values and each other one what the one before it gave |
| MappingCode.RuleOrderDoesNotMatter | platform/core/workflow_engine.py:1238-1299 | mapping rules with pairwise diverging targets give the same result in every order of the rules, whatever they read and transform |
| MappingCode.Resolve | platform/core/mapping_resolver.py:103-155 | the resolver's three loops are the fold of its `Layers`: defaults, flow rules and overrides |
| MappingCode.OverridesWin | platform/core/mapping_resolver.py:103-155 | a tenant override is what its target reads, over every default and flow rule |
| MappingCode.FlowRulesWinOverDefaults | platform/core/mapping_resolver.py:103-155 | a flow rule that later rules and overrides stay away from is what its target reads, over every default |
| MappingCode.DefaultsFillTheRest | platform/core/mapping_resolver.py:115-119 | a default that everything later stays away from is what its target reads |
| MappingCode.OverridesPerform | platform/core/mapping_resolver.py:147-153 | exactly the overrides that read a value write it, transformed if they say so, in order |
| MappingCode.ApplyWrite | platform/core/mapping_resolver.py:188-234 | the resolver's writer does what the engine's does without joining |
| MappingCode.ResolverGetNested | platform/core/mapping_resolver.py:157-186 | the resolver's string-level reader, recursive over every `[]`, reads what `ResolverRead` reads at the parsed key |
| MappingCode.ReadersAgree | platform/core/mapping_resolver.py:157-186 | the two readers agree if and only if everything the engine reads inside a list row is `None` |
| MappingCode.ReadersAgreeWithoutListRows | platform/core/mapping_resolver.py:157-186 | so they agree wherever no element met at a `[]` is itself a list |
| MappingCode.ReadersDisagreeOnListRows | platform/core/mapping_resolver.py:174-186 | a list row addressed by an index is read by the engine and not by the resolver |
| WorkflowGraph.Graph.constructor | platform/core/workflow_engine.py:2183-2196 | the loops build the node dictionary, in insertion order, and both edge indexes, each holding exactly its edges in order |
| WorkflowGraph.Graph.GetSuccessors | platform/core/workflow_engine.py:2207-2218 | the successors are the nodes stored at the ends of exactly the edges that leave the node by the handle, or of all that leave it without one, in edge order; the adjacency index gives what filtering the edge list does |
| WorkflowGraph.Graph.HandlerFor | platform/core/workflow_engine.py:1024-1031 | the stored error handler whose `catch_from` names the failed node and whose id comes first in the list |
| WorkflowGraph.TriggerIsFirst | platform/core/workflow_engine.py:2198-2202 | the trigger is the stored trigger node whose id comes first in the list |
| WorkflowGraph.PresentAreSelected | platform/core/workflow_engine.py:1057-1060 | listed body nodes are those that exist, each as stored under its id, in the order of the list |
| WorkflowEngine.BranchRank | platform/core/workflow_engine.py:679 | the rank of the unguarded single-node calls falls along a branch edge, as termination needs |
| WorkflowEngine.HandlerRank | platform/core/workflow_engine.py:427-434 | and along `catch_from` |
| UnguardedCalls.RankedExactlyWithoutCycles | platform/core/workflow_engine.py:427-434 | there is such a rank if and only if no cycle of branch edges and error handlers leads from a node back to itself |
| WorkflowEngine.SmallerRoom | platform/core/workflow_engine.py:906-924 | a sub-workflow not yet in the chain leaves fewer workflows to enter |
| WorkflowExecutor.Context.StoreOutput | platform/core/workflow_engine.py:360-363 | the output is stored under the node and the entries of a dictionary go over the data, and nothing else changes |
| WorkflowExecutor.Connectors.Compute | platform/core/workflow_engine.py:304-357 | a computed node is asked in its context, after the calls so far; only variable setters, aggregates and error handlers leave entries of their own |
| WorkflowExecutor.ExecuteNodes | platform/core/workflow_engine.py:245-258 | the loop over nodes behind the depth check does what the interpreter does, for every oracle; it terminates |
| WorkflowExecutor.ExecuteSingleNode | platform/core/workflow_engine.py:260-445 | one visit of a node: context, results (the same dictionary appended more than once and changed later), calls and error are the interpreter's |
| WorkflowExecutor.TryNode | platform/core/workflow_engine.py:299-377 | the `try` block, with the successors run inside it |
| WorkflowExecutor.FinishTry | platform/core/workflow_engine.py:310-377 | filtered nodes, responses and selected handles |
| WorkflowExecutor.RecoverNode | platform/core/workflow_engine.py:379-445 | the `except` block |
| WorkflowExecutor.RetryNode | platform/core/workflow_engine.py:384-410 | the retry loop stops at the first attempt whose successors finish as well, or after the last |
| WorkflowExecutor.GiveUpNode | platform/core/workflow_engine.py:412-445 | the failed result, then the error handler, or continuing, ignoring or raising |
| WorkflowExecutor.ExecuteLoop | platform/core/workflow_engine.py:593-633 | the loop node: item and index variables, the limit on iterations, the collected results |
| WorkflowExecutor.ExecuteParallel | platform/core/workflow_engine.py:635-707 | the parallel node: each branch on a copy of the context, results collected by branch, errors kept as results |
| WorkflowExecutor.ExecuteBatch | platform/core/workflow_engine.py:1033-1146 | the batch node: each item on a copy, calls item after item, results appended in the order in which items complete among those running, counts and outputs in index order, or the first error |
| WorkflowExecutor.ExecuteSubWorkflow | platform/core/workflow_engine.py:868-937 | the sub-workflow node: its checks of chain, nesting and existence, and the child's status and context |
| WorkflowExecutor.ExecuteWorkflow | platform/core/workflow_engine.py:152-243 | a whole execution from the trigger is `Execute` |
| ItemLaws.LoopReports | platform/core/workflow_engine.py:607-633 | a loop runs its body once for each element up to its limit and 1000, with both variables set, each from where the last ended, and each result is exactly the entries that are new or different after the body, or the item |
| ItemLaws.LoopWithoutList | platform/core/workflow_engine.py:608-610 | anything but a list is looped over no time |
| ItemLaws.BatchReports | platform/core/workflow_engine.py:1044-1144 | a batch runs its body on a copy of the context for each element up to its limit and 10000, in stop mode up to the first failure; outputs are what each body changed, errors the first 20, both in item order, with the counts |
| ItemLaws.BatchWithoutList | platform/core/workflow_engine.py:1053-1054 | anything but a list is a batch of nothing |
| ItemLaws.ParallelReports | platform/core/workflow_engine.py:648-707 | a parallel node runs each branch on a copy and collects each output or error under the branch, as a variable and as node outputs; errors of branches do not fail it |
| NodeLaws.LeafGives | platform/core/workflow_engine.py:304-357 | what the reply to a computed node does to the context, and by which edges the node goes on |
| NodeLaws.GoesOn | platform/core/workflow_engine.py:359-377 | whatever a node did to go on: its output is stored, its result is a success, and everything that follows runs on that context, one deeper |
| NodeLaws.FilterStops | platform/core/workflow_engine.py:314-321 | a filter that does not come out true leaves one filtered result and nothing else |
| NodeLaws.ResponseStops | platform/core/workflow_engine.py:347-357 | a response stores its output without merging it, and ends its path |
| NodeLaws.DataPassesThrough | platform/core/workflow_engine.py:321-326 | a delay and a passing filter give the data as their output |
| NodeLaws.TriesOfANode | platform/core/workflow_engine.py:379-445 | an action, request or think node is tried until it succeeds, with policy "retry" up to its number of retries more, in the same context; its own policy and number take priority over the workflow's; its result has the number of retries, or the first error |
| NodeLaws.RetryGoesOn | platform/core/workflow_engine.py:391-406 | a retry that works stores its output and runs what follows |
| NodeLaws.PolicyDecides | platform/core/workflow_engine.py:437-445 | without a handler a failure goes on, is ignored, or is raised under the node's name, as the policy says |
| NodeLaws.HandlerIsTold | platform/core/workflow_engine.py:417-435 | with a handler, whatever the policy, the handler runs in a context that names the failure |
| NodeLaws.EntersExactly | platform/core/workflow_engine.py:877-913 | a sub-workflow node enters exactly an existing workflow that is not in the chain, in a chain below the limit, by default 5 |
| NodeLaws.SubWorkflowRuns | platform/core/workflow_engine.py:882-937 | the child runs on the mapped input, or without one on the data; its error fails the node, and its final data is the output |
| NodeLaws.ExecutionStarts | platform/core/workflow_engine.py:158-213 | an execution starts from the trigger data and the defaults of the declared variables, with the trigger's result |
| NodeLaws.StoredOutputIsRead | platform/core/workflow_engine.py:1202-1208 | `nodes.` and an id read the output stored for the node |
| NodeLaws.StoredEntryIsRead | platform/core/workflow_engine.py:1202-1208 | and with a key an entry of it |
| NodeLaws.WherePathsRead | platform/core/workflow_engine.py:1195-1219 | variables, trigger data, the item of a batch and the data are read by their names |
| WorkflowExecutor.RerunFromNode | platform/core/workflow_engine.py:1729-1825 | a re-run executes the node live, in a chain of its own workflow alone, from a context in which the override's entries replace and extend the data of the node's first result, or of the final snapshot, and declared variables that are not set have their defaults |
| WorkflowExecutor.RestoreContext | platform/core/workflow_engine.py:1747-1773 | that context, entry by entry |
| EngineBlocks.RerunReplaysBlock | platform/core/workflow_engine.py:1748-1796 | with deterministic connectors and no override, a re-run has the context and error of the execution of the node that left its first result, and that execution's results, a contiguous block of the original's, are the re-run's up to the order in which items of concurrent batches complete; failures, retries, loops, batches and sub-workflows included, unless that execution hit the depth limit; the original was live or can reach no node that reads dry-run mode, and was started on its own or every sub-workflow check that it can reach comes out as if it had been |
| EngineBlocks.LiveRerunReplaysExactly | platform/core/workflow_engine.py:1748-1796 | if the original was live, started on its own and ran no two items of a batch at once, the block is exactly the re-run's results, in order, unless the depth limit fired in it |
| EngineBlocks.FamilyIsReplayable | platform/core/workflow_engine.py:1744-1745 | both conditions in terms of the workflows that the original leads to: none has a node that reads dry-run mode; none is in the chain above or takes it to a nesting limit, and they enter each other in no circle |
| RunModes.UnreadInFamily | platform/core/workflow_engine.py:455-592 | a family of workflows without such nodes reaches none from any chain |
| RunModes.ChainAboveUnnoticed | platform/core/workflow_engine.py:897-908 | every sub-workflow check in a family of workflows comes out alike with and without the chain above, if none is in that chain, they enter each other in no circle, and none can take the chain to a nesting limit |
| RunModes.WhenChecksAgree | platform/core/workflow_engine.py:903-913 | one check comes out alike in a chain and in its end if and only if they are the same, or the workflow is not in the longer one and that one reaches the limit only if its end does: the message of a circle names the whole chain |
| RerunDiffers.DryRunShows | platform/core/workflow_engine.py:459-477 | a re-run from an action, think or HTTP request that succeeded in a dry run never repeats it: the first result is a mock in the one and not in the other, on every graph and whatever fails or is retried after it, as long as no connector marks a live answer as a mock |
| RerunDiffers.DryRunOfAnAction | platform/core/workflow_engine.py:459-477 | a workflow of one action whose dry run differs from its re-run |
| RerunDiffers.ChainShows | platform/core/workflow_engine.py:903-908 | a re-run from a sub-workflow node never repeats an execution in whose chain the check of the node came out differently; it came out alike if and only if nothing is above the executing workflow, or the node's workflow is not in the chain and what is above does not take it to the limit |
| RerunDiffers.RerunEntersTheParent | platform/core/workflow_engine.py:903-908 | two workflows that enter each other: the child's execution finds the circle, and its re-run enters the parent |
| RerunDiffers.RerunFromTriggerDiffers | platform/core/workflow_engine.py:1748-1796 | from the trigger a re-run never repeats the original |
| EngineReplay.SameSingle | platform/core/workflow_engine.py:260-445 | with deterministic connectors a visit of a node depends on its context alone, not on the calls before it nor on a smaller depth, nor on dry-run mode if no node that can be reached reads it, nor on the chain if every sub-workflow check that can be reached comes out alike; results are equal up to the completion order of concurrent batches |
| EngineReplay.SameExecute | platform/core/workflow_engine.py:152-243 | so does a whole execution; in the same dry-run mode its calls, and in the same chain the chains it enters, are the same too |
| EngineReplay.ArrangeIsTotal | platform/core/workflow_engine.py:1104-1124 | in whatever order items complete, the results a batch appends are all the items' results |
| EngineReplay.EitherMayCompleteFirst | platform/core/workflow_engine.py:1104-1124 | two items that run at once may append their results in either order |
| EngineContainment.IgnoreAlwaysSucceeds | platform/core/workflow_engine.py:379-445 | with every `on_error` "ignore" an execution succeeds if and only if there is a trigger, for every oracle and every graph |
| EngineContainment.LenientFailsOnlyAtTheDepthLimit | platform/core/workflow_engine.py:437-441 | with "continue" as well, only the depth limit can fail it, for every oracle |
| EngineDepth.LayersStayWithinTheLimit | platform/core/workflow_engine.py:245-258 | a workflow with levels, at most 200, that fall along successors, batch bodies and error handlers never hits the depth limit, whatever the connectors answer |
| EngineDepth.LenientLayersSucceed | platform/core/workflow_engine.py:437-441 | so with "continue" or "ignore" everywhere it succeeds, for every oracle |
| EngineDepth.ContinuingFailsExactlyOnLongWalks | platform/core/workflow_engine.py:437-441 | a workflow of continuing nodes that all run what follows them fails if and only if a walk of 201 edges leads on from a successor of the trigger |
| EngineDepth.ContinuingCycleFails | platform/core/workflow_engine.py:437-441 | a continuing node that follows itself fails its workflow, for every oracle |
| EngineContainment.StopAfterFirstFailure | platform/core/workflow_engine.py:379-445 | when every failure stops, no connector is called after the first failed call, sub-workflows included, and the execution has failed |
| EngineRecords.ChainsAreDistinctAndShort | platform/core/workflow_engine.py:868-937 | no workflow is entered twice in one chain, and chains are no longer than the table allows |
| EngineRecords.ExecuteRecords | platform/core/workflow_engine.py:152-243 | every reply is the one the connectors give after exactly the calls before it |
| EngineCausality.ExecuteCausal | platform/core/workflow_engine.py:152-243 | oracles that agree on a run's first calls give runs that agree up to and including the next call |
| EngineRouting.ExecutionFollowsRoutes | platform/core/workflow_engine.py:371-377 | without failures and concurrency, the results are the depth-first enumeration of visits, each of which comes right after all that the visits before it called, makes its own call, and leads to exactly the ends of its edges, of a condition or switch those whose handle is the one its reply names; these calls are all that the execution makes |
| EngineRouting.RunsOncePerPath | platform/core/workflow_engine.py:371-377 | in such an execution a node leaves as many results as selected paths lead to it |
| Scheduler.EveryScheduleAgrees | platform/core/workflow_engine.py:1067-1130 | however coroutines interleave at their calls, no more than the limit run at once and each does exactly its own run |
| Scheduler.ScheduleLength | platform/core/workflow_engine.py:1067-1130 | every step uses up work, so every schedule ends |
| Scheduler.NeverStuck | platform/core/workflow_engine.py:1067-1130 | with a limit above zero something can always happen until all have finished |
| Scheduler.StartsBelowTheConcurrency | platform/core/workflow_engine.py:1045-1067 | an item may start exactly while fewer than the concurrency, and fewer than 50, are running |
| Scheduler.BatchIsScheduleIndependent | platform/core/workflow_engine.py:1058-1144 | a continue-mode batch gives, for every interleaving of its items, the outputs and errors of the items run one after the other, in index order, and all their results |
| Scheduler.BatchCompletesInSomeOrder | platform/core/workflow_engine.py:1067-1124 | if items start in index order, as the semaphore lets them, their results come in an order that the interpreter gives its batches for some choice of which running item completes next |
| Scheduler.ScheduleArranges | platform/core/workflow_engine.py:1067-1124 | the same for any coroutines, from any state that a schedule reaches |
| Scheduler.EveryItemCounts | platform/core/workflow_engine.py:1126-1144 | succeeded plus failed is the number of items |
| Scheduler.ParallelIsScheduleIndependent | platform/core/workflow_engine.py:664-707 | a parallel node collects what running each branch alone on a copy gives, for every interleaving of its branches |
| SyncLedger.RowReflectsHistory | platform/core/sync_state.py:192-256 | a row's attempts are the failures since its creation or last reset, its hash is the last outcome's, and its status is that of the last event |
| SyncLedger.Ledger.ShouldSync | platform/core/sync_state.py:104-176 | the decision for each kind of row, and the pending row that is inserted when there is none |
| SyncLedger.Ledger.Record | platform/core/sync_state.py:178-256 | an outcome updates the row of the check, or inserts one, or raises when the entity has one |
| SyncLedger.Ledger.ExecuteWithSync | platform/core/workflow_engine.py:1561-1654 | one event, alone: a forced one always runs, as does one without a row; with duplicates updated it runs if and only if the row is not pending and not synced with the same hash, and with duplicates skipped if and only if the row failed with retries left or the same hash, or is stale with the same hash; the row then holds the outcome, and one failure more if it was one |
| SyncLedger.Ledger.RecordExecution | platform/core/workflow_engine.py:1656-1727 | a directly run workflow leaves the row of its outcome, with one failure more if it was one, whatever the check decides |
| SyncLedger.Ledger.MarkStale | platform/core/sync_state.py:264-274 | exactly the synced rows of the workflow become stale |
| SyncLedger.Ledger.ResetFailed | platform/core/sync_state.py:333-349 | exactly the failed rows of the workflow become pending, with no attempts |
| SyncLedger.Ledger.ClearLedger | platform/core/sync_state.py:351-363 | exactly the workflow's rows are gone |
| SyncLedger.WhatRunsAgain | platform/core/sync_state.py:142-176 | exactly which rows a check runs again, for both ways to treat duplicates |
| SyncProtocol.EveryInterleavingIsSerial | platform/core/sync_state.py:104-176 | in every interleaving of any jobs and maintenance, the committed history of an entity is one that jobs running alone could leave, and its row is the fold of it |
| SyncProtocol.CommittedRowTellsItsHistory | platform/core/sync_state.py:192-256 | a committed row counts the failures since its creation or last reset, and is pending only when a reset came last |
| SyncProtocol.JobAlone | platform/core/sync_state.py:89-176 | a transaction whose key nobody owns runs its job if there is no row or the row calls for it, and commits exactly that outcome |
| SyncProtocol.MaintenanceAlone | platform/core/sync_state.py:258-363 | a stale mark changes exactly synced rows, a reset failed ones, a clear any |
| SyncProtocol.JobWaits | platform/core/sync_state.py:104-112 | a job whose row another transaction owns waits |
| SyncProtocol.WhatFollows | platform/core/sync_state.py:142-176 | in incremental mode a success is followed only by other content or maintenance, and a reset only by a clear |
| SyncProtocol.SuccessIsCommittedOnce | platform/core/workflow_engine.py:1598-1654 | with duplicates skipped, two committed successes of one entity have a stale mark or a clear between them |
| SyncProtocol.SameContentIsNotSentTwice | platform/core/workflow_engine.py:1598-1654 | in incremental mode two outcomes in a row are never both successes with the same content |
| SyncProtocol.ExecutionsDoNotOverlap | platform/core/sync_state.py:104-136 | in incremental mode two transactions never execute for the same entity at once |
| SyncProtocol.ForcedExecutionsCanOverlap | platform/core/workflow_engine.py:1561-1596 | in force mode a reachable state has two |
| TokenBuckets.TokenBucket.Allow | sdk/python/pinquark_connector_sdk/app.py:39-47 | a call refills by the time passed up to the burst, and takes a token if there is one |
| TokenBuckets.AllowAll | sdk/python/pinquark_connector_sdk/app.py:33-47 | the answers of one bucket over its life are those of `Calls` |
| TokenBuckets.GrantedExactlyWhenItFits | sdk/python/pinquark_connector_sdk/app.py:39-47 | a call is granted if and only if every window ending with it keeps its bound: no limiter that keeps the bound is more generous |
| TokenBuckets.AnyWindow | sdk/python/pinquark_connector_sdk/app.py:39-47 | the grants between two calls number at most capacity plus rate times time |
| TokenBuckets.TokensStayInRange | platform/core/connector_rate_limiter.py:124-145 | tokens stay between zero and the capacity |
| TokenBuckets.ConnectorRateLimiter.Check | platform/core/connector_rate_limiter.py:115-171 | one check: tokens found, reply, remaining or wait, both keys written, other buckets untouched, nothing written when it raises |
| TokenBuckets.ExpiryIsInvisible | platform/core/connector_rate_limiter.py:126-146 | however keys lapse, each check finds the tokens of a bucket whose keys never lapse |
| TokenBuckets.AllowedExactlyWhenGranted | platform/core/connector_rate_limiter.py:126-146 | so its replies are those of the everlasting bucket, window bound included |
| TokenBuckets.RemainingAreAllowed | platform/core/connector_rate_limiter.py:132-136 | the remaining requests of an answer are how many more checks at the same time are allowed |
| TokenBuckets.LapseUnnoticed | platform/core/connector_rate_limiter.py:126-131 | the exact condition under which a lapse goes unnoticed |
| TokenBuckets.KeysMustLiveForAWindow | platform/core/connector_rate_limiter.py:143-145 | keys that live for a given time lapse unnoticed, whatever they hold, if and only if that time is at least the window; the source keeps them for two |
| TokenBuckets.LapsingLastAloneShows | platform/core/connector_rate_limiter.py:126-131 | were the key of the last refill lost alone, which expiry cannot do as it is written second with the same lifetime, a token would be lost |
| TokenBuckets.WaitingIsEnough | platform/core/connector_rate_limiter.py:138-140 | waiting as told is enough if and only if the missing part of a token refills within a tenth of a second, or takes a time that rounding to hundredths does not cut |
| TokenBuckets.WaitingCanBeTooShort | platform/core/connector_rate_limiter.py:138-140 | three requests a second: told to wait 0.33 seconds, a caller then finds 0.99 tokens |
| TokenBuckets.NoRequestsDivideByZero | platform/core/connector_rate_limiter.py:124-140 | a check raises a division by zero if and only if the limit is no requests |
| SlidingWindow.RateLimiter.Dispatch | platform/middleware/rate_limiter.py:51-91 | one request: pruned, extended and counted set, admitted within the limit, other callers untouched |
| SlidingWindow.TheSetIsTheWindow | platform/middleware/rate_limiter.py:57-61 | however keys expire, the set is exactly the requests of the last window |
| SlidingWindow.AdmittedExactlyWithinTheLimit | platform/middleware/rate_limiter.py:57-66 | a request is admitted if and only if its window, refused requests included, is within the limit, and is told what the limit leaves |
| SlidingWindow.AnyWindow | platform/middleware/rate_limiter.py:57-66 | any half-open window admits at no more than the limit's number of times |
| SlidingWindow.AnyWindowOfDistinctTimes | platform/middleware/rate_limiter.py:57-66 | if the requests admitted in the window have distinct times, they are no more than the limit |
| SlidingWindow.SameTimeIsCountedOnce | platform/middleware/rate_limiter.py:59 | any number of requests with one timestamp is admitted |
| CircuitBreaker.CircuitBreaker.PreCheck | sdk/python/pinquark_connector_sdk/http.py:81-90 | a check raises while open and too early, and otherwise opens half-way |
| CircuitBreaker.CircuitBreaker.OnSuccess | sdk/python/pinquark_connector_sdk/http.py:92-95 | closed, with no failures |
| CircuitBreaker.CircuitBreaker.OnFailure | sdk/python/pinquark_connector_sdk/http.py:97-104 | one failure more, and open from the threshold on or from half-open |
| CircuitBreaker.CircuitBreaker.Request | sdk/python/pinquark_connector_sdk/http.py:162-242 | the retry loop, with other requests at work whenever it waits, is `Attempts`, and the breaker is what its trace leaves |
| CircuitBreaker.ClosedExactlyBelowTheThreshold | sdk/python/pinquark_connector_sdk/http.py:81-104 | for every interleaving the count is the failures since the last success, and the breaker is closed if and only if it is below the threshold |
| CircuitBreaker.PassesExactly | sdk/python/pinquark_connector_sdk/http.py:81-90 | a check passes if and only if the count is below the threshold or the timeout has passed since the last failure |
| CircuitBreaker.SendsAndSleepsAreBounded | sdk/python/pinquark_connector_sdk/http.py:178-247 | at most one send more than retries, and exactly the sum of the backoffs slept, at most 0.5 times 2 to the retries less one |
| CircuitBreaker.HowARequestEnds | sdk/python/pinquark_connector_sdk/http.py:207-240 | which results are possible after how many sends, and that any returned response closed the breaker |
| CircuitBreaker.WhatFollowsAReply | sdk/python/pinquark_connector_sdk/http.py:178-240 | a status below 500 is the result at once and a success, an error of another kind is raised at once and neither, a server fault is a failure and retried after the backoff while retries are left |
| CircuitBreaker.OnlyFaultsAreRetried | sdk/python/pinquark_connector_sdk/http.py:178-240 | every reply of a request but the last is a transport error or a status of at least 500, and an answer is the last reply |
| CircuitBreaker.NoAttempts | sdk/python/pinquark_connector_sdk/http.py:178-240 | the loop runs out if and only if the number of retries is negative |
| CircuitBreaker.LastServerErrorIsASuccess | sdk/python/pinquark_connector_sdk/http.py:207-218 | a request that gets nothing but server errors is refused on the way, or returns the last of them after all its sends and leaves the breaker closed with no failures |
| CircuitBreaker.WhenServerErrorsAreRefused | sdk/python/pinquark_connector_sdk/http.py:178-218 | alone on the breaker, it is refused if and only if some attempt's failure brings the count to the threshold and the next attempt checks before the timeout |
| OfflineQueue.OfflineQueue.Enqueue | onpremise/nexo-agent/src/sync/offline_queue.py:53-62 | a pending row is appended, and its id returned |
| OfflineQueue.OfflineQueue.GetPending | onpremise/nexo-agent/src/sync/offline_queue.py:64-84 | the first pending rows in id order, up to the limit |
| OfflineQueue.OfflineQueue.MarkProcessed | onpremise/nexo-agent/src/sync/offline_queue.py:86-92 | exactly that row is processed |
| OfflineQueue.OfflineQueue.MarkFailed | onpremise/nexo-agent/src/sync/offline_queue.py:94-104 | exactly that row has one attempt more, and is dead at its maximum |
| OfflineQueue.FlushQueue | onpremise/nexo-agent/src/sync/sync_engine.py:151-187 | the flush loop, with rows enqueued meanwhile, marks and sends as `Flush` does, up to the first request error |
| OfflineQueue.EveryRowTellsItsSends | onpremise/nexo-agent/src/sync/offline_queue.py:64-104 | in every run a row is sent at most its maximum of times, never after it was accepted, and its state and attempts are exactly what its sends make them |
| OfflineQueue.RowsByStatus | onpremise/nexo-agent/src/sync/sync_engine.py:176-187 | in every run a row counts its sends without an answer or with a status of 300 or above, is processed if and only if one was answered below 300, and otherwise dead if and only if five were not |
| OfflineQueue.FlushSendsThePending | onpremise/nexo-agent/src/sync/sync_engine.py:151-187 | a flush sends the first 50 pending rows in id order, or those up to the first that is not answered |
| OfflineQueue.NothingIsLost | onpremise/nexo-agent/src/sync/sync_engine.py:151-187 | no step loses or changes an operation |
| OfflineQueue.FlushingDrains | onpremise/nexo-agent/src/sync/sync_engine.py:151-187 | each flush that finds something pending uses up an owed send |
| OfflineQueue.DrainsInTime | onpremise/nexo-agent/src/sync/sync_engine.py:151-187 | as many flushes as sends are owed leave nothing pending |
| VersionHistory.Workflow.SnapshotVersion | platform/core/audit_trail.py:54-74 | the next number, a snapshot of the row, and the row's version set to it |
| VersionHistory.Workflow.Apply | platform/api/gateway.py:3253-3279 | an update gives each column that it sets its value and keeps the others, a rollback gives all columns those of the version, each adds one version of the row; one that raises or finds no version changes nothing |
| VersionHistory.Workflow.constructor | platform/api/gateway.py:3186-3203 | a new workflow has version 1 |
| VersionHistory.SerialHistory | platform/core/audit_trail.py:54-74 | after any edits in turn the versions are 1 to n and the row equals the last |
| VersionHistory.VersionsNeverChange | platform/core/audit_trail.py:54-74 | no edit changes an existing version |
| VersionHistory.RollbackRestores | platform/core/audit_trail.py:117-146 | a rollback goes ahead if and only if the version exists, and then appends its content as the next version |
| VersionHistory.RollbackUndoes | platform/core/audit_trail.py:117-146 | rolling back to a row's version undoes whatever was done since |
| VersionHistory.EveryInterleavingIsNumbered | platform/core/audit_trail.py:54-74 | concurrent transactions number the committed versions 1 to n, by the row lock |
| VersionHistory.CommittedVersionsNeverChange | platform/core/audit_trail.py:54-74 | and never change one |
| VersionHistory.EditAlone | platform/api/gateway.py:3253-3279 | a transaction that nobody interleaves with does what the edit does on its own |
| VersionHistory.SavedMatches | platform/api/gateway.py:3276-3279 | an edit leaves the row equal to its version if and only if each column was written or is still as it was loaded |
| VersionHistory.ConcurrentUpdatesMix | platform/api/gateway.py:3253-3279 | updates of different columns that were loaded together leave a row that no version describes |

## Left out

- Merge nodes: line 279 of `platform/core/workflow_engine.py` tests dictionaries for membership in a set of ids, which raises before the node's `try`.
- Timeouts and cancellation of nodes, branches and executions; durations; delays between retries of a node.
- What a single node computes (conditions, switches, transforms, templates, HTTP, credentials, mock outputs): the oracle `World.leaf`.
- Cycles of `catch_from` among error handlers and of `branch` edges among parallel nodes: those calls bypass the depth check and recurse without end (`WorkflowEngine.Ranked` excludes exactly them: `UnguardedCalls.RankedExactlyWithoutCycles`).
- Stop-mode batches under interleaving: which items start before the first error depends on the schedule; the sequential order is modelled.
- Scheduler.BatchIsScheduleIndependent: another batch or parallel node inside an item makes its calls in that item's coroutine, one item or branch after the other; the interleavings are those of the outermost node.
- Scheduler.ParallelIsScheduleIndependent: the same for a batch or parallel node inside a branch.
- WorkflowExecutor.ExecuteBatch: makes the calls of one item after those of the items before it; `Scheduler` has the interleaved ones.
- A concurrency of zero, with which a batch waits for ever.
- Aliasing of JSON trees between the context and results: trees are values, result dictionaries are objects.
- Truncated previews of inputs and outputs, `sub_execution_id`, redaction, execution records in the database.
- Nodes without a label, whose error message names the id instead; source strings of a batch with `{{ }}` around them.
- Mapping transforms and the text of `body_text` and `subject`; `int()` of keys with spaces, signs or underscores.
- Savepoints around sync events, and failures of the database other than a unique violation; deadlocks between ledger keys.
- Entity keys, content hashes and tenants of the ledger: a key and a hash are given strings.
- Floating point in the token buckets and timers: real numbers.
- Overlapping checks of one token bucket: a check reads and writes its keys as one step.
- Parsing of rate strings and lookup of a connector's limits.
- Errors of the HTTP client that the retry loop does not catch are one reply, `Other`.
- Overlapping flushes of the offline queue, its sync state, and payloads that are not JSON.
- Columns of a workflow that are not versioned, and the credential rename, which rewrites nodes without a version.
- Listing and statistics of ledger rows, queue depth and versions: easy.
