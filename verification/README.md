# The scheduling engine, modelled and proved

This project models the scheduling engine of the repository: how one pod is
given a node (`scheduler/schedule_one.go`), how many pods do so at once while
binding goroutines, informers and the queue interleave, and how the scheduler
indexes the cluster events its plugins wait for (`scheduler/scheduler.go`).
`dafny verify dfyconfig.toml` checks everything.

## The parts

| module | what it is |
|---|---|
| `Common` | node names, statuses, options, sublists |
| `Quota` | `numFeasibleNodesToFind` with 32-bit arithmetic |
| `FilterSearch` | the parallel feasibility search as a transition system over atomic steps: start, filter, add, slot write, cancel, undo |
| `RoundRobin` | the same search with its pieces run one at a time; the rotation of `nextStartNodeIndex` over successive cycles |
| `NodeSearch` | the search as code over shared arrays and the counter, each step of it proved to be a step of `FilterSearch` |
| `Feasibility` | what one search returns and records |
| `Extenders` | the fold over the extenders and the status map they rewrite in place |
| `ScoreOrder`, `Reservoir`, `HostSelection` | the binary heap over an array, reservoir sampling over explicit draws, and `selectHost` |
| `Prioritize` | plugin scores plus the extender scores merged under one mutex |
| `Placements` | the relation between a request and the answer of `schedulePod`, and what follows from it |
| `Scheduler` | `findNodesThatPassFilters`, `findNodesThatFitPod`, `evaluateNominatedNode` and `schedulePod` as methods that rotate `nextStartNodeIndex`, proved to answer by that relation |
| `Lifecycle` | the life of a pod as a transition system: one scheduling thread, any number of binding goroutines, the informers, the cache and the queue |
| `LifecycleTrace`, `LifecycleCache`, `LifecycleQueue` | what every reachable state keeps: the trace of events, who holds a pod, who keeps it in flight |
| `LifecycleRuns` | runs that show which of those guarantees depend on what |
| `SchedulerLoop` | `ScheduleOne` and the binding goroutine as code; between any two of its steps the rest of the world takes any steps it likes, and every step is one of `Lifecycle` |
| `Registration` | `buildQueueingHintMap` and `unionedGVKs` |

A concurrent part appears twice: as a transition system with an inductive
invariant over every interleaving, and as a method whose every step is proved
to be a step of that system.

## Assumptions

The libraries behind the engine are not part of this model. They enter as
contracts:

- `AssumePod` fails if the pod is already in the cache. It may fail otherwise too.
- `ForgetPod` succeeds only on a pod assumed on the same node.
- `AddUnschedulableIfNotPresent` always takes the pod it is given out of flight, and
  queues it unless it is queued already. A pod added as ready leaves the pool.
- `Parallelizer().Until` runs every piece unless its context is cancelled, and
  waits for every piece it started.
- An extender's `Filter` returns a sublist of the nodes it is given
  (`Extenders.WellBehaved`).
- `RunScorePlugins` returns one entry per node, in node order, with a total that
  is the sum of its scores (`Prioritize.ScoresNodes`).
- The node names of a snapshot are unique; a snapshot has at most 2^31-1 nodes;
  a configured percentage is in 0..100 (`Placements.Configured`). `Quota` says what
  other percentages do.
- `rand.Intn(n)` returns a number in [0, n). The draws of one call are a parameter.
- Filters, scores, extender answers and informer lookups are arbitrary values or
  functions of the node, fixed for one cycle.
- `MaxNodeScore / MaxExtenderPriority` is the parameter `scale`, the framework's
  action bits are the parameter `actions`.

## What the proofs brought out

- A pod that `ScheduleOne` drops at scheduler/schedule_one.go:86-95 is never
  marked done: it stays in the in-flight set until another attempt or a failure
  handler finds it (`LifecycleRuns.SkippedPodIsStuck`,
  `LifecycleQueue.InFlightExactly`). In-flight claims therefore begin after
  `skipPodSchedule`.
- The failure handler releases the popped pod exactly when the informer has no
  pending pod of that name or one with the same UID
  (`LifecycleQueue.HandlerReleasesIff`).
- When PreFilter leaves no node, the remainder modulo `len(nodes)` at
  scheduler/schedule_one.go:511 is a run-time panic. It is the outcome `Panic`, and
  `Placements.PanicsExactly` says on which inputs it occurs: PreFilter passes the pod
  with a set that misses the snapshot, and no nominated node yields. When a nominated
  node would yield but its search can be interrupted, neither outcome is promised.
- A binding cycle whose pod the informer removed can later forget the entry of a newer
  attempt on the same node. The model calls that incarnation of the pod robbed, and torn
  if the newer attempt was not itself about to give up in the scheduling thread. Until
  the first removal of a pod the guarantees hold without exception
  (`LifecycleCache.OneBindingUntilRemoval`); afterwards they hold for every incarnation
  that is not torn, and wherever an incarnation can be torn some run makes them fail
  for it (`LifecycleRuns.RobberyAllowsTwoHolders`). A removal under an attempt that
  holds the pod unbound, and has not failed in the scheduling thread, always allows
  such a run (`LifecycleRuns.RemovalTears`).
- With that exception, at most one attempt holds an incarnation of a pod in every run if
  and only if assumed pods never expire (`LifecycleRuns.SafeExactlyWithoutExpiry`); the
  source sets the expiry to zero, which means never.
- The nominated node is tried before PreFilter's node set is applied, so a
  nominated host need not be in it (`Placements.SoundHost`).
- A piece of the search that overshoots the quota leaves no trace of its node: the
  node is neither feasible nor recorded, and the next cycle starts with it.
- `selectHost` needs a list whose length is not one and a positive count. With more
  ties than `count` it pops the whole heap.
- A percentage over 100 makes the feasible list longer than the node list
  (`Quota.QuotaWithinListIff`). With the adaptive percentage one more node can lower the
  quota: exactly when it makes the size a multiple of 125 from 250 to 5625
  (`Quota.AdaptiveQuotaFallsExactlyAt`).

## Model

| member | source | states |
|---|---|---|
| `LifecycleCache.StepKeepsCache` | scheduler/schedule_one.go:66-134 | every step of any attempt, informer or queue keeps the cache invariant: each assumed pod is held by the attempt that assumed it, each holder has its entry unless another attempt's forget took it, and no incarnation that is not torn is held twice |
| `LifecycleCache.OneBindingUntilRemoval` | scheduler/schedule_one.go:199-212 | in every reachable state, until the informer first removes a pod from the cache: at most one attempt holds it and at most one BindingSuccess is announced for it, without exception |
| `LifecycleCache.OneBindingPerIncarnation` | scheduler/schedule_one.go:199-212 | later too, two BindingSuccess events of one pod belong to different incarnations of it, unless the one they share is torn |
| `LifecycleCache.ReachableIsSafe` | scheduler/schedule_one.go:66-134 | in every reachable state at most one attempt holds an incarnation that is not torn |
| `LifecycleCache.DoomedRobsNothing` | scheduler/schedule_one.go:215-221 | an attempt that fails in the scheduling thread never takes another attempt's entry |
| `LifecycleCache.AssumedPodsAreHeld` | scheduler/schedule_one.go:945-962 | accounting in every reachable state: an assumed pod is held, and the assumed pods are exactly the unconfirmed pods that some attempt has assumed and not forgotten, except in an incarnation whose entry another attempt took |
| `LifecycleCache.RobberyBreaksAccounting` | scheduler/schedule_one.go:332-346 | that exception is exact: taking another attempt's entry leaves a pod held and not assumed |
| `LifecycleCache.FailureLeavesUnassumed` | scheduler/schedule_one.go:215-257 | after the forget of a failed reserve, permit, wait, prebind or bind the pod is assumed if and only if another attempt has it on another node; the forget of an attempt that holds an incarnation that is not torn always leaves it unassumed |
| `LifecycleCache.OnlyOwnForgetEvicts` | scheduler/schedule_one.go:332-346 | apart from the informer, a step evicts an assumed pod if and only if it is a forget of that pod on that node; it is then the forget of the attempt that assumed it or of one from an earlier incarnation, unless this one is torn |
| `LifecycleCache.BindFinishes` | scheduler/schedule_one.go:967-1003 | binding is finished in the cache whether bind succeeds or fails, and the entry stays assumed |
| `LifecycleCache.OnlyBindFinishes` | scheduler/schedule_one.go:999-1003 | no other step finishes an entry |
| `LifecycleRuns.SafeExactlyWithoutExpiry` | scheduler/scheduler.go:54-57 | in every run at most one attempt holds an incarnation that is not torn, if and only if assumed pods never expire |
| `LifecycleRuns.ExpiryBreaksSafety` | scheduler/scheduler.go:54-57 | with any positive expiry some run assumes a bound pod a second time |
| `LifecycleRuns.RobberyAllowsTwoHolders` | scheduler/schedule_one.go:332-346 | the condition on torn incarnations is exact: whenever an attempt can forget the entry of another that is not about to give up in the scheduling thread, some continuation has two attempts hold that incarnation |
| `LifecycleRuns.RemovalTears` | scheduler/schedule_one.go:332-346 | from any reachable state in which an attempt that has not failed in the scheduling thread holds a cached pod unbound, the informer's removal has a continuation in which two later attempts hold the pod at once |
| `LifecycleRuns.AbsentPodCanBeDoublyHeld` | scheduler/schedule_one.go:332-346 | the same from any state with one scheduling thread in which the pod of such an attempt is absent from the cache |
| `LifecycleTrace.StepKeepsTrace` | scheduler/schedule_one.go:118-134 | every step keeps each attempt's tally of events equal to the one that belongs to its place in the control flow, and every event allowed by the ones before it |
| `LifecycleTrace.BindingFollowsScheduling` | scheduler/schedule_one.go:152-154 | every BindingSuccess is preceded by the ScheduleSuccess of the same attempt for the same pod and node |
| `LifecycleTrace.UnreservedExactlyOnce` | scheduler/schedule_one.go:215-257 | an attempt that ends in failure after its Reserve was unreserved exactly once, one that failed before never; a bound attempt never was; all its events name its pod and its host |
| `LifecycleTrace.SettledExactlyOnce` | scheduler/schedule_one.go:111-133 | every attempt that gets past skipPodSchedule is settled exactly once, by Done after a bind or by the failure handler, on every exit path |
| `LifecycleTrace.MovesExactlyOnce` | scheduler/schedule_one.go:345-363 | a failed binding whose forget succeeded fires one AssignedPodDelete move, every other ended attempt none |
| `LifecycleTrace.MoveOrder` | scheduler/schedule_one.go:354-360 | the move of a rejected pod comes after the failure handler settled it, the move of an error before; both after unreserving |
| `LifecycleTrace.AnnouncedOnce` | scheduler/schedule_one.go:303-309 | no attempt announces its binding twice, and an attempt that announced it has only its Done left |
| `LifecycleQueue.StepKeepsFlight` | scheduler/schedule_one.go:111-133 | every step keeps: a pod in flight has an attempt that popped it and has not released it |
| `LifecycleQueue.NothingLeaks` | scheduler/schedule_one.go:1022-1082 | once all attempts at a pod ended with a bind or with a failure that found the same UID, the pod is not in flight, on every path and in every interleaving |
| `LifecycleQueue.HandlerReleasesIff` | scheduler/schedule_one.go:1060-1082 | the failure handler takes the popped pod out of flight if and only if the informer has no other pending pod under its name |
| `LifecycleQueue.SkippedPodStaysInFlight` | scheduler/schedule_one.go:86-95 | one step cannot take a pod of a skipped attempt out of flight, except a failure handler that finds it |
| `LifecycleQueue.SkippedPodNeverLeaves` | scheduler/schedule_one.go:86-95 | nor can any run without a new attempt at it |
| `LifecycleQueue.InFlightExactly` | scheduler/schedule_one.go:86-133 | over every run in which no other attempt's handler found the pod: a pod with one attempt is in flight while the attempt goes on, and afterwards if and only if the attempt was skipped or its handler found a pod with another UID |
| `LifecycleRuns.SkippedPodIsStuck` | scheduler/schedule_one.go:86-95 | the run that pops and skips a pod, from any state with an idle thread: the pod is in flight with a skipped attempt only, and stays so in every continuation without a new attempt or a handler that finds it |
| `LifecycleQueue.RejectedPodStaysPooled` | scheduler/schedule_one.go:345-363 | a rejected pod that the failure handler put in the unschedulable pool is still there after the attempt's own deferred move, whatever other steps come between, unless one of those moves it |
| `LifecycleQueue.FailedPodIsRetried` | scheduler/schedule_one.go:1072-1082 | a failed pod that the informer still has pending is queued again, and stays queued in every run until it is popped |
| `LifecycleQueue.MoveMovesExactly` | scheduler/schedule_one.go:354-360 | in every reachable state a pod is not pooled and ready at once, and a move takes exactly its pods from the pool to the ready ones |
| `LifecycleQueue.OwnStepAdvances` | scheduler/schedule_one.go:66-134 | each step of an attempt brings it closer to its end |
| `LifecycleQueue.NeverStuck` | scheduler/schedule_one.go:66-134 | an attempt that is not over always has a step it can take, whatever the others did |
| `SchedulerLoop.World.ScheduleOne` | scheduler/schedule_one.go:66-134 | amid any interference: skipped exactly when the pod has no profile, is being deleted or was found assumed; otherwise with its binding goroutine started on the host found exactly when the assume could succeed, and reserve and permit did; otherwise ended with the status of the step that failed, its failure handler having settled the pod by the informer's answer |
| `SchedulerLoop.World.SkipPodSchedule` | scheduler/schedule_one.go:375-393 | skips exactly the pods that have no profile, are being deleted, or are known to be assumed; a failed check does not skip |
| `SchedulerLoop.World.SchedulingCycle` | scheduler/schedule_one.go:139-267 | the status and the step that failed follow from the answers and the cache at the moment of the assume: no host, then a failed assume (an error), then reserve, then permit; none of them failing, success |
| `SchedulerLoop.World.Assume` | scheduler/schedule_one.go:945-962 | fails exactly when AssumePod does, for a pod in the cache always |
| `SchedulerLoop.World.ReserveAndPermit` | scheduler/schedule_one.go:214-257 | the status is that of reserve, else of permit; a failure was unreserved and forgotten |
| `SchedulerLoop.World.UndoReservation` | scheduler/schedule_one.go:215-221 | unreserve and forget, in that order, keep the failure's status |
| `SchedulerLoop.World.BindingCycle` | scheduler/schedule_one.go:270-330 | the status is the first failure among wait, prebind and bind; on success the binding is announced, on failure the attempt is still reserved |
| `SchedulerLoop.World.HandleBindingCycleError` | scheduler/schedule_one.go:332-364 | ends the attempt through unreserve, forget, one move if the forget succeeded, and the failure handler, in the order the status demands; the handler settles the pod by the informer's answer |
| `SchedulerLoop.World.HandleSchedulingFailure` | scheduler/schedule_one.go:1022-1082 | right after it the popped pod is out of flight, by Done or by the requeue, unless the informer has another pod under its name, which then leaves in its stead; a pending pod is in the pool or ready, as the queue decides; nothing is queued otherwise; the attempt ends or has only its deferred move left |
| `SchedulerLoop.SettledPodIsRetried` | scheduler/schedule_one.go:1072-1082 | a pod that the failure handler found pending is in the queue in every continuation until it is popped |
| `SchedulerLoop.World.BindAsynchronously` | scheduler/schedule_one.go:117-133 | the goroutine ends the attempt; as bound if and only if wait, prebind and bind succeed, otherwise with the pod settled by the informer's answer |
| `SchedulerLoop.ExtendersBinding` | scheduler/schedule_one.go:981-997 | the first interested binder that succeeds or may not be ignored settles the binding; without one it is left to the plugins |
| `SchedulerLoop.BindStatus` | scheduler/schedule_one.go:967-978 | extenders come before the bind plugins |
| `FilterSearch.StepKeepsInv` | scheduler/schedule_one.go:607-636 | every atomic step of any piece keeps: counter = kept claims + pending overshoots, an overshoot only when every slot is claimed, slots and owners one to one |
| `FilterSearch.QuiescentSlots` | scheduler/schedule_one.go:647-650 | at rest the counter equals the claimed slots, the first counter slots are written with their owners' nodes, the others are empty |
| `FilterSearch.FoundNodesPass` | scheduler/schedule_one.go:616-636 | in every state the claimed nodes are distinct nodes that passed the filters |
| `FilterSearch.FoundEnough` | scheduler/schedule_one.go:589-662 | at rest without a filter error or outside cancellation, min(quota, passing nodes) nodes are found |
| `FilterSearch.AnyScheduleFindsEnough` | scheduler/schedule_one.go:597-650 | for every schedule of the pieces' atomic steps that ends at rest, the same from the initial state: number, distinctness, and a prefix written without a gap |
| `FilterSearch.RunIsBounded` | scheduler/schedule_one.go:649 | no schedule has more steps than the pieces hold work |
| `FilterSearch.CounterFits` | scheduler/schedule_one.go:607-629 | the 32-bit counter never exceeds the number of nodes and is never negative |
| `FilterSearch.RecordedRejections` | scheduler/schedule_one.go:633-657 | exactly the rejections seen are recorded, with the filters' status; all of them if the search was not cancelled |
| `FilterSearch.RingIsPermutation` | scheduler/schedule_one.go:619 | whatever the start index, the pieces look at every node exactly once |
| `FilterSearch.RingIsRotation` | scheduler/schedule_one.go:619 | the pieces look at the nodes from the start index to the end and then from the beginning |
| `NodeSearch.NodeSearch.CheckNode` | scheduler/schedule_one.go:616-636 | the code's next atomic step on the shared arrays and the counter is the transition system's |
| `NodeSearch.NodeSearch.Until` | scheduler/schedule_one.go:649 | any order of the pieces keeps the invariant and ends at rest |
| `NodeSearch.NodeSearch.UntilInOrder` | scheduler/schedule_one.go:649 | with the pieces one at a time, the found and the recorded pieces are exactly those of the sequential scan |
| `RoundRobin.InOrderMeaning` | scheduler/schedule_one.go:616-662 | the scan stops early only at a filter error or at the first passing node beyond the quota, and reports exactly the passing nodes before that |
| `RoundRobin.ParallelRefinesScan` | scheduler/schedule_one.go:597-662 | without filter errors every parallel run finds as many nodes as the scan, and the same ones if they are fewer than the quota |
| `RoundRobin.WindowStart` | scheduler/schedule_one.go:507-511 | each cycle's window of the ring, searched in order or taken without filter plugins, starts where the windows before it end |
| `RoundRobin.EveryNodeIsRecorded` | scheduler/schedule_one.go:507-511 | with or without filter plugins, every node is recorded or taken within ceil(n / numNodesToFind) cycles |
| `Quota.QuotaBounds` | scheduler/schedule_one.go:667-693 | min(n, 100) <= quota <= n for every percentage in 0..100, even when the 32-bit product wraps around |
| `Quota.ConfiguredQuota` | scheduler/schedule_one.go:672-692 | for at least 100 nodes and any configured percentage, from the profile or else global, the quota is that percentage of the nodes rounded down, but at least 100 |
| `Quota.ProfileDecides` | scheduler/schedule_one.go:673-678 | a profile's percentage, even zero, makes the global one irrelevant |
| `Quota.SmallCluster` | scheduler/schedule_one.go:668-670 | below 100 nodes the quota is all of them |
| `Quota.QuotaGrowsWithPercentage` | scheduler/schedule_one.go:687-692 | a larger percentage never lowers the quota |
| `Quota.AdaptiveQuotaExactly` | scheduler/schedule_one.go:680-692 | the adaptive percentage is 50 less one for every 125 nodes, but at least 5, and the quota that percentage, but at least 100 |
| `Quota.QuotaWithinListIff` | scheduler/schedule_one.go:667-693 | as long as the product fits, the quota is at most n if and only if the cluster is small or the percentage at most 100 |
| `Quota.AdaptiveQuota` | scheduler/schedule_one.go:680-687 | the adaptive default looks for at least 5 percent of the nodes, and for exactly 5 percent from 5625 nodes on |
| `Quota.AdaptiveQuotaFallsExactlyAt` | scheduler/schedule_one.go:680-692 | for every size n, one more node lowers the adaptive quota if and only if it makes the size a multiple of 125 from 250 to 5625 |
| `Feasibility.SearchResult` | scheduler/schedule_one.go:649-662 | what one search at rest returns: distinct passing nodes, the recorded rejections, an error that some node caused, and every node accounted for below the quota |
| `Feasibility.InOrderCount` | scheduler/schedule_one.go:507-511 | run in order, the search is fixed: its nodes are those of the scan, feasible plus recorded nodes are the window's nodes, and it errs exactly when the scan stops at a filter error |
| `Scheduler.Scheduler.FindNodesThatPassFilters` | scheduler/schedule_one.go:582-663 | the search result above for this start index and the wanted number of nodes, or without filter plugins that many nodes from the start of the ring; the rejections are added to the status map |
| `Scheduler.Scheduler.EvaluateNominatedNode` | scheduler/schedule_one.go:538-556 | for a node of the snapshot, what the extenders leave of the search for it, nothing after an error; the status map keeps what both recorded |
| `Scheduler.Scheduler.FindNodesThatFitPod` | scheduler/schedule_one.go:451-536 | PreFilter's verdict, then the nominated node's answer if it yields, then the full search's; result, status map and move of the start index are those of the searches made |
| `Scheduler.Scheduler.FitAfterPreFilter` | scheduler/schedule_one.go:481-535 | the nominated node comes before PreFilter's node set, and its statuses stay when it does not yield |
| `Scheduler.Scheduler.FilterAndRotate` | scheduler/schedule_one.go:507-511 | the filter phase, and nextStartNodeIndex moved by the nodes it processed, error or not |
| `Scheduler.Scheduler.SearchAndExtend` | scheduler/schedule_one.go:494-535 | the filter phase on PreFilter's nodes and the extenders' fold over exactly what it found and recorded; a panic exactly when no node is kept |
| `Scheduler.Scheduler.SchedulePod` | scheduler/schedule_one.go:398-447 | the result follows from the searches made: sound host, counts, exact panic, and every error has its cause |
| `Placements.FeasibleIsSound` | scheduler/schedule_one.go:483-535 | every node that findNodesThatFitPod answers is a snapshot node that passed the filters and every extender that answered; it is in PreFilter's node set unless it was nominated |
| `Placements.SuggestedHostIsSound` | scheduler/schedule_one.go:398-447 | the suggested host is such a node, the feasible nodes are exactly what the extenders leave of what the search found, and none of them has a better final total |
| `Placements.PanicsExactly` | scheduler/schedule_one.go:507-511 | schedulePod panics if and only if the snapshot is usable, PreFilter's set misses it and the nominated node, if any, does not yield; if the nominated node's search may be interrupted, a panic still needs the first two and follows from all three |
| `Placements.PanicExample` | scheduler/schedule_one.go:494-511 | it does so for a snapshot of one node and a PreFilter set that names another |
| `Placements.FailsWithCause` | scheduler/schedule_one.go:398-447 | uninterrupted, an error has one of these causes: snapshot, PreFilter, a filter error on a kept node, an extender's refusal, scoring, or that the extenders left none of the wanted number of passing nodes; each of them but a filter error always makes it fail |
| `Placements.PlacesExactly` | scheduler/schedule_one.go:398-447 | without extenders, nomination and errors, the pod is placed if and only if some node that PreFilter keeps passes the filters, whatever the interleaving |
| `Placements.NominationOutcome` | scheduler/schedule_one.go:483-492 | uninterrupted, the nominated node yields if and only if it is in the snapshot and passes the filters and all extenders |
| `Placements.FindsWanted` | scheduler/schedule_one.go:589-663 | an uninterrupted search without error finds as many of the nodes that PreFilter keeps and the filters pass as wanted: one if nothing scores and no extender filters, the quota otherwise |
| `Placements.SmallClusterIsSearchedWhole` | scheduler/schedule_one.go:589-593 | with a score plugin, a prioritizing or a filtering extender and fewer than 100 kept nodes, the search finds every fitting node |
| `Placements.NothingToChooseBy` | scheduler/schedule_one.go:591-593 | with none of them it stops at one |
| `Placements.BestOfAllFitting` | scheduler/schedule_one.go:398-447 | in the first case, with extenders that drop nothing, the feasible nodes are all fitting nodes and the host has the best total of all of them |
| `Placements.EveryNodeIsEvaluated` | scheduler/schedule_one.go:426-446 | in the first case, without nomination and with extenders that report what they drop, EvaluatedNodes is the snapshot size |
| `Placements.ExcludedStayUnresolvable` | scheduler/schedule_one.go:494-511 | a node that PreFilter leaves out is UnschedulableAndUnresolvable to the end, for that reason first of all, whatever nomination, filters and extenders record |
| `Placements.RejectionIsRecorded` | scheduler/schedule_one.go:463-479 | a PreFilter rejection is recorded for exactly the snapshot's nodes, with its status, and fails the pod without moving the start index |
| `Placements.FilterErrorIsReported` | scheduler/schedule_one.go:618-661 | a filter error in the full search is what schedulePod reports, in the words of a node that caused it |
| `Placements.CycleRotates` | scheduler/schedule_one.go:507-511 | without nomination and narrowing, schedulePod moves the start index to the end of its window of the ring, and its search finds or records exactly the window's nodes |
| `Placements.FilterAccounts` | scheduler/schedule_one.go:494-511 | nodes excluded by PreFilter, rejected by filters and found feasible are disjoint snapshot nodes |
| `Placements.ExtendersKeepAccounts` | scheduler/schedule_one.go:516-535 | extenders that report only nodes they drop keep feasible and recorded nodes apart |
| `Placements.CountsAreBounded` | scheduler/schedule_one.go:426-446 | without a nominated node 1 <= FeasibleNodes <= EvaluatedNodes <= snapshot size |
| `Extenders.Record` | scheduler/schedule_one.go:722-742 | whatever the order in which the reply's maps are visited, the status map becomes the one merged map |
| `Extenders.MergedMeaning` | scheduler/schedule_one.go:722-742 | each reported node gets one more reason, and is unresolvable if and only if it is reported so or was so before |
| `Extenders.FindNodesThatPassExtenders` | scheduler/schedule_one.go:695-747 | the loop computes the fold over the extenders, nodes and status map together |
| `Extenders.RunEndsWith` | scheduler/schedule_one.go:713-720 | the fold fails if and only if some interested extender that may not be ignored answers with an error while nodes are left; otherwise it yields what the last one leaves |
| `Extenders.SurvivorsPassedEveryExtender` | scheduler/schedule_one.go:695-747 | a surviving node was in the input and let through by every extender that answered |
| `Extenders.StatusesOnlyGrow` | scheduler/schedule_one.go:722-742 | over all extenders, reasons are only extended and an UnschedulableAndUnresolvable node keeps that code |
| `Extenders.DroppedNodesAreKept` | scheduler/schedule_one.go:720-744 | extenders that report only nodes they drop keep feasible and recorded nodes disjoint, within the input |
| `Extenders.NodesAreConserved` | scheduler/schedule_one.go:720-744 | if they report every node they drop, feasible plus recorded nodes are unchanged in number |
| `Prioritize.ExtenderScores.Merge` | scheduler/schedule_one.go:821-845 | one goroutine's critical section adds to each node's total the scale times the weight times the sum of its scores in the list, and keeps every total equal to the sum of its scores |
| `Prioritize.CollectExtenderScores` | scheduler/schedule_one.go:798-849 | whatever the order of the goroutines, each node's total is the scale times its weighted points from the interested extenders that did not fail |
| `Prioritize.PrioritizeNodes` | scheduler/schedule_one.go:754-864 | each node's final total is its plugin total plus the scale times its weighted points, and equals the sum of its scores; the exact error cases; all ones when nothing scores |
| `Prioritize.TopPriority` | scheduler/schedule_one.go:830-832 | the top priority, which the scale maps to the top node score, adds the weight times the top node score to its node and nothing to others |
| `Prioritize.TopPriorityOverturns` | scheduler/schedule_one.go:850-855 | as the only extender's answer it makes its node the better of two if and only if the plugins prefer the other by less than that |
| `ScoreOrder.HeapedIsHeap` | scheduler/schedule_one.go:877-878 | heap.Init makes a heap of the same entries under the reversed Less |
| `ScoreOrder.DrainSorts` | scheduler/schedule_one.go:927-941 | popping a heap until it is empty delivers every entry once, best total first |
| `HostSelection.NodeScoreHeap.Init` | scheduler/schedule_one.go:877-878 | the loop over the array leaves exactly the heap that the specification describes |
| `HostSelection.NodeScoreHeap.SiftDown` | scheduler/schedule_one.go:927-929 | the in-place loop is the specified sift-down |
| `HostSelection.NodeScoreHeap.Pop` | scheduler/schedule_one.go:935-941 | yields the root, and the shrunken prefix is the heap of the rest |
| `HostSelection.SelectHost` | scheduler/schedule_one.go:872-919 | the in-place loop computes the selection: the chosen tie swapped to the front of the pop order, cut at count; an empty list is an error |
| `HostSelection.SelectReportsTheBest` | scheduler/schedule_one.go:868-919 | min(count, n) entries of the input, non-increasing, none worse than one left out, headed by the host, which has the best total |
| `HostSelection.TiesAreBest` | scheduler/schedule_one.go:887-905 | the ties considered are exactly the entries with the best total, however many there are |
| `HostSelection.EveryBestNodeEquallyLikely` | scheduler/schedule_one.go:879-912 | of the k! possible draws, exactly (k-1)! make each of the k best nodes the host, whatever count is |
| `Reservoir.SelectionIsUniform` | scheduler/schedule_one.go:892-898 | exactly (k-1)! draw sequences select the t-th of k ties |
| `Reservoir.DrawSpaceMember` | scheduler/schedule_one.go:893-894 | the counted space is exactly the set of sequences that Intn can return |
| `Reservoir.DrawSpaceSize` | scheduler/schedule_one.go:893-894 | there are k! of them |
| `Registration.BuildQueueingHintMap` | scheduler/scheduler.go:378-425 | every event's list is, in plugin order, what each plugin contributes to it; with the feature gate off every hint is the default one, with it on another hint function is in a list if and only if a plugin of that name registers the event with it; a list has one entry for each registration and each injection |
| `Registration.HeardExactly` | scheduler/scheduler.go:372-425 | an event is in the map if and only if some plugin registers it or has it injected |
| `Registration.AddedNodesBringTaintUpdates` | scheduler/scheduler.go:405-422 | a plugin that registers a Node event containing Add has an entry under a Node event containing UpdateNodeTaint |
| `Registration.UnionedGVKs` | scheduler/scheduler.go:525-537 | each resource has exactly the bits of its events' actions, in whatever order the maps are visited |
| `Registration.UnionedIsUnique` | scheduler/scheduler.go:525-537 | the result is determined by the set of events |
| `Registration.BuildEventIndex` | scheduler/scheduler.go:372-432 | over all profiles, the Node entry contains UpdateNodeTaint if any plugin registers a Node event containing Add |

## Left out

- `Send`, gRPC, the notifier, logger and watcher: sending is an event of the trace.
- Metrics, logging, tracing, the event recorder, `updatePod`, `truncateMessage`, `getAttemptsLabel`: observability and one-branch helpers.
- `buildExtenders`, the option closures and `applyDefaultHandlers`: configuration wiring that would add easy members.
- `AddPluginStatus`, `UnschedulablePlugins`, `PendingPlugins` and `PostFilter`: no later step in these files depends on them; a failed search is a rejection or an error.
- Nominated-pod bookkeeping of the queue, `Activate` and the order of the active queue: a ready pod is in a set, and any of them is popped next.
- Internals of plugins, preemption, cache and queue: the contracts above.
- Wall-clock time, goroutine fairness and real randomness: nondeterministic steps and explicit draws.
- Errors of `UpdateSnapshot` are a parameter; an error of `NodeInfos().List` right after it is not modelled.
- 64-bit wrap-around of scores: totals are unbounded integers.
- `AppendReason` changes a status object that other holders may share; here the status map holds values.
- The order of the entries in a node's `Scores` list depends on the goroutines and is left open; its sum is not.
- `ClusterEvent` has the two fields these files read; hint functions are identities, not code.
- A filter error carries its first reason only, and the wrapping of errors into `FitError` is an error text.
- The life cycle counts an attempt as holding its pod from its assume to its forget or for ever once bound; a binding goroutine that has forgotten its pod and is still reporting the failure is not counted as holding it.
- `SchedulerLoop` follows one attempt in detail; the others, other binding goroutines included, are arbitrary steps of `Lifecycle`.
- Slot writes, filter calls and counter updates of the search are atomic steps; the memory model below them is not modelled.
