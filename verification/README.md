# Cluster simulation core

A Dafny model of the simulation core of kubesim: the cluster store, the
scheduler with its caches, preemption and batching, and the controllers that
step the simulation (consolidation and drain, drift replacement, ReplicaSets,
deletion costs, the provisioner, and the event engine).

Every component is modelled twice. A *value* such as `Cluster`, `CacheValue`,
`Packing` or `Simulation`, with pure functions on it, says what an operation
does; all laws are lemmas about these functions. A *class* or a method with
loops does the same in place, in the form of the original, and is proved to
leave exactly the state that the function prescribes. All components share one
invariant, `ClusterModel.Inv`: allocations are exact sums of requests, node
lists and back-pointers agree, and the pending queue is exactly the Pending
pods. It speaks of live nodes only, because removing a node leaves its pods
pointing at it; that this is harmless rests on handles never being reissued.

`dafny verify dfyconfig.toml` checks the whole project.

## Layout

| file | component |
|---|---|
| Types, Sequences | value types; `retain`, `swap_remove`, stable sorting |
| Examples | clusters written down outright, to exhibit where a property fails |
| Arenas | generational arena |
| ClusterModel, ClusterState | cluster store: value, operations, invariant, runs; the object |
| SelectorKeys | printing and parsing selectors as cache keys |
| Topology, Filters, Scoring | domain counts, filter plugins, score plugins |
| Preemption, Scheduling | victims and the best preemption; the uncached chain |
| Caches, CachedScheduling | incremental caches; the chain that uses them |
| SchedulingPass, BatchScheduling, SpreadSkew | passes over the queue; shortcuts; skew over runs |
| DisruptionBudgets, Drain | budgets; draining a node |
| Relocation, Consolidation | joint placements; planning, validating and executing |
| Events, Engine, NodePools, Drift | events; the engine and its runs; drift replacement |
| ReplicaSets, DeletionCosts | scaling; node ranks and their composition with scale-down |
| InstanceTypes, UniformBatches, ClaimPacking, Provisioning | cheapest types; fast path; claim packing; the pass |

## Where code and documentation differ

The model follows the code.

- The ReplicaSet module comment says that pods with fewer co-located replicas
  are deleted first. The comparison deletes pods with more of them first
  (`ReplicaSets.VictimsComeFirst`).
- A ReplicaSet that prefers emptying nodes sets a pod's cost to minus its
  co-located count, so it deletes from its fullest nodes first
  (`ReplicaSets.FullestNodesFirst`).
- The three-tier ranking gives ranks to fifty nodes only. Pods beyond are
  deleted by the costs they had before, and more than one of their nodes can be
  left partly emptied (`DeletionCosts.CutLeavesTwoPartlyEmptied`; exactly when
  says `DeletionCosts.PartlyEmptiedExactly`).
- The three-tier ranking has a tier for cordoned nodes, but cordoned nodes are
  not ranked at all (`DeletionCosts.DriftedTierIsEmpty`).
- Reporting a new node lowers every cached minimum to at most zero, also for
  keys the node does not carry, so in general the cached minimum is only a
  lower bound (`Caches.NodeAddedAgrees` says exactly when it stays exact).
- The cached and the uncached spread filter differ for a skew limit of zero
  (`Filters.ExactMinimumAgrees`), and a limit of 2^31 or more turns negative
  when cast (`SpreadSkew.ShortcutAgrees`).
- The spread filter accepts an empty node at once. With domains of several nodes
  that can exceed the limit (`SpreadSkew.SharedDomainOverfills`), and it is the
  only way to exceed it (`SpreadSkew.RunKeepsSkewExactly`).
- Selector keys collide when a value contains a comma
  (`SelectorKeys.CommaCollides`).
- When the batch scheduler runs out of candidate nodes it reports every pod not
  bound as unschedulable, also after binds, while the plain batch stops at the
  first failure after a bind (`BatchScheduling.Refines` says exactly when,
  `BatchScheduling.CountsDiffer` shows it).
- A consolidation pass is skipped when the fingerprint of the state is what it
  was. A bind of a pod that requests 31 millicores leaves it unchanged
  (`Consolidation.BindIsNoticed`).
- The provisioner's fast path does not bound GPUs per claim
  (`UniformBatches.GpuBatchIsDropped`; exactly when a batch is placed says
  `UniformBatches.UniformBatchIsPlaced`), looks at the labels of one pod only
  (`Provisioning.DifferentLabelsShareAHost`, `Provisioning.ClaimRespectsHosts`),
  and overflows for pods without requests (`UniformBatches.OverflowsExactly`).

## Model

| member | source | states |
|---|---|---|
| Arenas.Arena.constructor | crates/kubesim-core/src/arena.rs:65-67 | A new arena is consistent and empty. |
| Arenas.Arena.Add | crates/kubesim-core/src/arena.rs:73-86 | Returns the next handle, reusing the last freed slot with a higher generation, and maps exactly that handle to the value; no other handle changes. |
| Arenas.Arena.Delete | crates/kubesim-core/src/arena.rs:88-96 | Returns the value of a live handle and makes only that handle stale; a stale or foreign handle removes nothing. |
| Arenas.Arena.Find | crates/kubesim-core/src/arena.rs:98-101 | Resolves a handle exactly when it is live, whatever has reused its slot since. |
| Arenas.Arena.Write | crates/kubesim-core/src/arena.rs:103-106 | Replaces the value behind one live handle and nothing else. |
| Arenas.Arena.Count | crates/kubesim-core/src/arena.rs:108-110 | The stored counter is the number of live handles. |
| Arenas.Arena.Handles | crates/kubesim-core/src/arena.rs:117-121 | Iteration visits every live handle once, in slot order. |
| Arenas.OrderFacts | crates/kubesim-core/src/arena.rs:117-121 | Slot order is duplicate-free, complete, and as long as the number of live handles. |
| Arenas.LiveAndFree | crates/kubesim-core/src/arena.rs:73-96 | Live and free slots together are all slots, so counting down and freeing agree. |
| Arenas.InsertFacts | crates/kubesim-core/src/arena.rs:73-86 | An insertion keeps the table consistent and returns a handle that was never issued before. |
| Arenas.RemoveFacts | crates/kubesim-core/src/arena.rs:88-96 | A removal keeps the table consistent and un-issues no handle. |
| Arenas.StaleForever | crates/kubesim-core/src/arena.rs:73-101 | After any sequence of insertions, removals and writes a stale handle is still stale, and the next insertion does not return it. |
| ClusterStates.ClusterState.constructor | crates/kubesim-core/src/state.rs:23-32 | A new cluster state is the empty cluster. |
| ClusterStates.ClusterState.AddNode | crates/kubesim-core/src/state.rs:35-37 | The node is inserted under the returned handle; pods, queue and other nodes stay. |
| ClusterStates.ClusterState.RemoveNode | crates/kubesim-core/src/state.rs:40-42 | Only the node goes; its pods keep pointing at it. Returns what was removed. |
| ClusterStates.ClusterState.SubmitPod | crates/kubesim-core/src/state.rs:45-51 | The pod is inserted as Pending without a node and appended to the queue. |
| ClusterStates.ClusterState.BindPod | crates/kubesim-core/src/state.rs:54-73 | Succeeds exactly for a Pending pod and a live node; then allocation, node list, back-pointer, phase and queue change together, and otherwise nothing does. |
| ClusterStates.ClusterState.RemovePod | crates/kubesim-core/src/state.rs:76-88 | A live pod leaves its node, the pod arena and the queue; a missing pod changes nothing. |
| ClusterStates.ClusterState.EvictPod | crates/kubesim-core/src/state.rs:147-164 | Succeeds exactly for a Running pod with a node; the pod goes back to the end of the queue and its node, if still there, gives its request back. |
| ClusterStates.ClusterState.ResizePod | crates/kubesim-core/src/state.rs:117-143 | Completed, Infeasible or nothing to resize, with the whole new state for each case. |
| ClusterStates.ClusterState.Cordon | crates/kubesim-karpenter/src/consolidation.rs:994-996 | Marks one live node as cordoned. |
| ClusterStates.ClusterState.SetDeletionCost | crates/kubesim-engine/src/replicaset.rs:229-233 | Writes one pod's deletion cost. |
| ClusterModel.EmptyInv | crates/kubesim-core/src/state.rs:23-32 | The empty cluster satisfies the accounting invariant. |
| ClusterModel.AddNodeInv | crates/kubesim-core/src/state.rs:35-37 | Adding a node keeps the accounting invariant if and only if the node arrives empty and within the machine width. |
| ClusterModel.RemoveNodeInv | crates/kubesim-core/src/state.rs:40-42 | Removing a node keeps the accounting of all nodes that stay. |
| ClusterModel.SubmitPodInv | crates/kubesim-core/src/state.rs:45-51 | Submitting a pod keeps the invariant, queue included. |
| ClusterModel.BindPodInv | crates/kubesim-core/src/state.rs:54-73 | A bind keeps the invariant if and only if the node's sum does not saturate. |
| ClusterModel.UnaccountExact | crates/kubesim-core/src/state.rs:76-88 | The subtraction on departure never saturates: the node's sum loses exactly the pod's request and its list exactly the pod. |
| ClusterModel.RemovePodInv | crates/kubesim-core/src/state.rs:76-88 | Removing a pod keeps the invariant, whether or not its node is still there. |
| ClusterModel.EvictPodInv | crates/kubesim-core/src/state.rs:147-164 | Evicting a pod keeps the invariant, whether or not its node is still there. |
| ClusterModel.ResizePodInv | crates/kubesim-core/src/state.rs:117-143 | A resize keeps every node's allocation equal to the sum of its pods' requests. |
| ClusterModel.ResizeNeverGrowsExcess | crates/kubesim-core/src/state.rs:117-143 | A resize never grows any node's excess of allocation over allocatable resources. |
| ClusterModel.CordonInv | crates/kubesim-karpenter/src/consolidation.rs:994-996 | Cordoning keeps the invariant. |
| ClusterModel.SetDeletionCostInv | crates/kubesim-engine/src/replicaset.rs:229-233 | Writing a deletion cost keeps the invariant. |
| ClusterModel.StepInv | crates/kubesim-core/src/state.rs:35-164 | Any store operation keeps the invariant if and only if its admissibility condition, checkable beforehand, holds. |
| ClusterModel.RunInv | crates/kubesim-core/src/state.rs:35-164 | Over every admissible run, node removal and slot reuse included: allocations are exact sums, lists and back-pointers agree, the queue is exactly the Pending pods, and stale handles stay stale. |
| SelectorKeys.RoundTrip | crates/kubesim-scheduler/src/lib.rs:650-654 | Printing a selector and parsing it back gives the same pairs if and only if no key contains an equals sign or comma and no value a comma. |
| SelectorKeys.RoundTripMatches | crates/kubesim-scheduler/src/lib.rs:716-728 | For such selectors the parsed selector matches exactly the same label sets. |
| SelectorKeys.EqualKeys | crates/kubesim-scheduler/src/lib.rs:650-654 | For such selectors keys are equal if and only if the selectors have the same pairs. |
| SelectorKeys.CommaCollides | crates/kubesim-scheduler/src/lib.rs:650-654 | With a comma in a value two selectors that match different pods share a key. |
| Topology.CountDomains | crates/kubesim-scheduler/src/lib.rs:366-385 | Every domain value of a live node, empty ones included, maps to the number of running matching pods on live nodes of the domain. |
| Topology.SmallestCount | crates/kubesim-scheduler/src/lib.rs:666-677 | The smallest count, or zero without domains. |
| Topology.ListedMatches | crates/kubesim-scheduler/src/lib.rs:222-264 | In an accounted cluster the matching pods of a domain are exactly those on its nodes' lists, each on one list. |
| Topology.HasMatchingPod | crates/kubesim-scheduler/src/lib.rs:222-241 | True if and only if some running pod of the domain matches. |
| Topology.CountMatchingPods | crates/kubesim-scheduler/src/lib.rs:244-264 | The number of running pods of the domain that match, each counted once. |
| Filters.FilterAffinity | crates/kubesim-scheduler/src/lib.rs:279-315 | Passes exactly when every required term is satisfied by the pods of the node's domain. |
| Filters.SkewUncached | crates/kubesim-scheduler/src/lib.rs:394-416 | The skew, with the code's branch on the emptiest domain. |
| Filters.UncachedSkewIs | crates/kubesim-scheduler/src/lib.rs:394-416 | That branch changes nothing: the skew is the domain's count plus one minus the smallest count. |
| Filters.FilterSpread | crates/kubesim-scheduler/src/lib.rs:394-416 | Passes exactly when every hard constraint allows one more pod, with the shortcut for nodes without pods. |
| Filters.FilterAll | crates/kubesim-scheduler/src/lib.rs:51-104 | The five filters together decide feasibility. |
| Filters.LowMinimumIsSafe | crates/kubesim-scheduler/src/lib.rs:806-831 | A remembered minimum that is too low never accepts what the uncached filter rejects. |
| Filters.ExactMinimumAgrees | crates/kubesim-scheduler/src/lib.rs:806-831 | With the exact minimum the cached and uncached filters agree if and only if the constraint allows a skew or the domain is not among the emptiest. |
| Caches.SchedulingCaches.Invalidate | crates/kubesim-scheduler/src/lib.rs:694-699 | Forgets everything. |
| Caches.SchedulingCaches.OnNodeAdded | crates/kubesim-scheduler/src/lib.rs:703-712 | Adds the node's domain to the counts of its keys and lowers every minimum to at most zero. |
| Caches.SchedulingCaches.OnPodBound | crates/kubesim-scheduler/src/lib.rs:715-771 | Updates counts, minima, matches and match counts for every cached key the pod and node fall under. |
| Caches.SchedulingCaches.GetDomainCounts | crates/kubesim-scheduler/src/lib.rs:666-677 | Returns the remembered counts and minimum, computing them on the first lookup. |
| Caches.SchedulingCaches.GetAffinityMatch | crates/kubesim-scheduler/src/lib.rs:679-684 | Returns the remembered match, computing it on the first lookup. |
| Caches.SchedulingCaches.GetAffinityCount | crates/kubesim-scheduler/src/lib.rs:686-691 | Returns the remembered count, computing it on the first lookup. |
| Caches.CountsLookedAgrees | crates/kubesim-scheduler/src/lib.rs:666-677 | A lookup leaves caches that agree with the cluster. |
| Caches.BindCount | crates/kubesim-scheduler/src/lib.rs:715-771 | A bind raises the true count of one domain by one, and only if the pod matches. |
| Caches.PodBoundAgrees | crates/kubesim-scheduler/src/lib.rs:715-771 | After a reported bind every cached count and match equals a fresh recomputation; low minima stay low and exact ones exact. |
| Caches.AddNodeCounts | crates/kubesim-scheduler/src/lib.rs:703-712 | Adding an empty node changes the true counts by at most one new empty domain per key. |
| Caches.NodeAddedAgrees | crates/kubesim-scheduler/src/lib.rs:703-712 | After a reported node counts and matches are still right and minima low; exact minima stay exact if and only if each cached key gets an empty domain. |
| Caches.RunAgrees | crates/kubesim-scheduler/src/lib.rs:660-772 | Over every run of reported binds, reported empty nodes and lookups the caches equal a fresh recomputation, minima never exceed the true ones, and are exact while each node brings a new empty domain. |
| Caches.NothingCachedAgrees | crates/kubesim-scheduler/src/lib.rs:694-699 | Empty caches agree with every cluster. |
| Scoring.ScoreNode | crates/kubesim-scheduler/src/lib.rs:109-211 | Each scorer's value for a node. |
| Scoring.TotalsRespectScores | crates/kubesim-scheduler/src/lib.rs:1050-1063 | Normalised totals lie between 0 and 100 per scorer, and a node that is nowhere better than another totals no more. |
| Scoring.DominatedIsNotChosen | crates/kubesim-scheduler/src/lib.rs:1050-1081 | A node that a later one matches or beats under every scorer is never chosen. |
| Scoring.LastLargestFacts | crates/kubesim-scheduler/src/lib.rs:1079-1081 | The chosen index holds the largest total, and no later index does. |
| Scheduling.ScheduleOneUncached | crates/kubesim-scheduler/src/lib.rs:1004-1084 | The uncached chain: not found, bound to the last best feasible node, preempted, or unschedulable with its reason. |
| Scheduling.BoundIsFeasible | crates/kubesim-scheduler/src/lib.rs:1004-1084 | A pod is bound if and only if some live node is ready, uncordoned and passes every filter, and then to such a node. |
| Scheduling.ScheduleIsJustified | crates/kubesim-scheduler/src/lib.rs:1004-1084 | Whatever the verdict, a bound pod fits its node and a preemption is the best one. |
| CachedScheduling.SpreadVerdict | crates/kubesim-scheduler/src/lib.rs:806-831 | Cached acceptance implies uncached acceptance, and equals it with the exact minimum. |
| CachedScheduling.FilterSpreadCached | crates/kubesim-scheduler/src/lib.rs:806-831 | With agreeing caches a cached pass implies an uncached pass; with exact minima the verdicts are equal; the caches still agree afterwards. |
| CachedScheduling.FilterAffinityCached | crates/kubesim-scheduler/src/lib.rs:776-804 | With agreeing caches the cached affinity verdict is the uncached one. |
| CachedScheduling.FilterAllCached | crates/kubesim-scheduler/src/lib.rs:1087-1177 | The cached chain of filters accepts only feasible nodes, and exactly those with exact minima. |
| CachedScheduling.ScoreNodeCached | crates/kubesim-scheduler/src/lib.rs:833-880 | With agreeing caches every cached score is the uncached one. |
| CachedScheduling.ScheduleOneCached | crates/kubesim-scheduler/src/lib.rs:1087-1177 | With agreeing caches a bind goes to a feasible node; with exact minima and no saturated node the result is that of the uncached chain. |
| Preemption.CountPdbViolations | crates/kubesim-scheduler/src/lib.rs:509-526 | The number of budgets the victims would violate. |
| Preemption.FindVictims | crates/kubesim-scheduler/src/lib.rs:530-560 | The shortest lowest-priority-first prefix of lower-priority pods that frees enough, or none. |
| Preemption.VictimsFacts | crates/kubesim-scheduler/src/lib.rs:530-560 | Victims have lower priority than the preemptor and at most that of any pod spared; they free enough, and no shorter prefix does. None means no prefix frees enough. |
| Preemption.FindPreemption | crates/kubesim-scheduler/src/lib.rs:564-619 | The preemption chosen over all nodes. |
| Preemption.PreemptionIsBest | crates/kubesim-scheduler/src/lib.rs:564-619 | The choice is a lexicographic minimum of budget violations, victims and priority sum over all ready uncordoned nodes that pass the other filters and can free enough; none means there is no such node. |
| SchedulingPass.PlaceFacts | crates/kubesim-scheduler/src/lib.rs:1192-1208 | One placement keeps the accounting, grows no node's excess, runs the placed pod, and takes places only from lower-priority running pods. |
| SchedulingPass.EvictAllFacts | crates/kubesim-scheduler/src/lib.rs:1198-1201 | Evicting distinct pods of a node frees exactly the sum of their requests and touches no other pod. |
| SchedulingPass.PassOutcome | crates/kubesim-scheduler/src/lib.rs:1180-1212 | Queued pods end bound or untouched, other pods untouched or Pending, and the bound count is the number of queued pods running. |
| SchedulingPass.BoundStaysBound | crates/kubesim-scheduler/src/lib.rs:1180-1212 | No pod bound in a pass is evicted later in it, whatever the pass preempts. |
| SchedulingPass.PassIsSafe | crates/kubesim-scheduler/src/lib.rs:1180-1212 | A pass overcommits no node that was not, loses no pod, keeps the accounting, and bound plus unschedulable is the queue length. |
| SchedulingPass.SchedulePending | crates/kubesim-scheduler/src/lib.rs:1180-1212 | The loop ends exactly where the pass over the sorted queue does, with its counts. |
| BatchScheduling.NowhereMeansUnschedulable | crates/kubesim-scheduler/src/lib.rs:1284-1296 | A pod that is feasible nowhere and cannot preempt is unschedulable. |
| BatchScheduling.SameFingerprint | crates/kubesim-scheduler/src/lib.rs:1250-1257 | Pods with equal requests and constraints are feasible nowhere together, whatever their labels. |
| BatchScheduling.SkipFollows | crates/kubesim-scheduler/src/lib.rs:1250-1257 | A pod skipped for its fingerprint is one that the full chain calls unschedulable, and counting it keeps step with the plain batch. |
| BatchScheduling.BindKeepsCover | crates/kubesim-scheduler/src/lib.rs:1266-1271 | After a bind the candidates still include every node with room. |
| BatchScheduling.OutOfCandidates | crates/kubesim-scheduler/src/lib.rs:1245-1249 | With an empty candidate list the plain batch binds none of the remaining pods, and the counts are related exactly as below. |
| BatchScheduling.OutOfRoomUnschedulable | crates/kubesim-scheduler/src/lib.rs:1245-1249 | When no schedulable node has room for the batch minimum, the full chain binds no pod of the batch, and calls it unschedulable unless a running pod of lower priority could be evicted. |
| BatchScheduling.SkippedAreUnschedulable | crates/kubesim-scheduler/src/lib.rs:1245-1249 | In a batch in descending priority with no running pod below it, the full chain calls every pod unschedulable that an empty candidate list skips. |
| BatchScheduling.CountsDiffer | crates/kubesim-scheduler/src/lib.rs:1245-1249 | A node with one CPU and three pods that want it: the plain batch counts one unschedulable pod, the batch with shortcuts two. |
| BatchScheduling.NoneBelowMeansPreemptionFree | crates/kubesim-scheduler/src/lib.rs:1273-1283 | A batch in descending priority is preemption-free when no running pod has lower priority than one of its pods. |
| BatchScheduling.Scheduler.ScheduleAndReport | crates/kubesim-scheduler/src/lib.rs:1258-1283 | Schedules through the caches, places, reports; with exact caches the verdict is the uncached one and the caches stay exact. |
| BatchScheduling.Scheduler.SchedulePendingFrom | crates/kubesim-scheduler/src/lib.rs:1217-1302 | With its shortcuts and caches the batch ends in the cluster of the plain batch with the same bound count, in preemption-free runs; its unschedulable count is the plain one, except that it is all pods not bound when some were bound and no node has room left for the batch minimum. It is sound in every run. |
| SpreadSkew.ShortcutAgrees | crates/kubesim-scheduler/src/lib.rs:394-416 | For a key unique per node the empty-node shortcut agrees with the full check if and only if the limit fits a signed 32-bit integer. |
| SpreadSkew.BindKeepsSkewExactly | crates/kubesim-scheduler/src/lib.rs:366-417 | For every key the bind of a counted pod keeps largest minus smallest count within the limit if and only if the domain it lands in is not already too full. |
| SpreadSkew.AcceptedBindKeepsSkew | crates/kubesim-scheduler/src/lib.rs:394-416 | For every key a bind that the filter accepts keeps the limit, except exactly when the node passed by the empty-node shortcut although its domain is too full. |
| SpreadSkew.BindKeepsSkew | crates/kubesim-scheduler/src/lib.rs:394-416 | For a key unique per node every accepted bind keeps the limit. |
| SpreadSkew.RunKeepsSkewExactly | crates/kubesim-scheduler/src/lib.rs:1192-1197 | Over every run of scheduler binds and for every key, the limit holds all along if and only if no step binds into a full domain by the shortcut. |
| SpreadSkew.RunKeepsSkew | crates/kubesim-scheduler/src/lib.rs:1192-1197 | For a key unique per node every run of scheduler binds keeps the limit. |
| SpreadSkew.SharedDomainOverfills | crates/kubesim-scheduler/src/lib.rs:394-416 | An accounted cluster with two zones in which the scheduler, under any strategy, binds a pod by the shortcut and exceeds a limit of one. |
| DisruptionBudgets.CountRunningMatching | crates/kubesim-karpenter/src/consolidation.rs:1102-1104 | The number of running pods that the selector matches. |
| DisruptionBudgets.CheckEviction | crates/kubesim-karpenter/src/consolidation.rs:1096-1110 | True if and only if every budget that covers the pod has a running pod to spare. |
| DisruptionBudgets.EvictRunning | crates/kubesim-karpenter/src/consolidation.rs:1096-1110 | An eviction takes exactly one pod from the budgets that cover it. |
| Drain.DrainChanges | crates/kubesim-karpenter/src/consolidation.rs:1143-1153 | The pods reported as evicted are exactly those that lost their place, each once. |
| Drain.DrainKeepsFloors | crates/kubesim-karpenter/src/consolidation.rs:1143-1153 | For every budget the running pods afterwards are at least the smaller of its floor and the number before. |
| Drain.DrainEvictsAllItMay | crates/kubesim-karpenter/src/consolidation.rs:1143-1153 | Every movable pod still running is protected by a budget in the final state. |
| Drain.DrainIsSafe | crates/kubesim-karpenter/src/consolidation.rs:1113-1173 | All of this for a whole node, with daemonset pods and pods elsewhere untouched. |
| Drain.HandleNodeDrained | crates/kubesim-karpenter/src/consolidation.rs:1113-1173 | The handler drains as above and schedules terminations, one reconcile per owner, and provisioning if pods are pending. |
| Engines.Engine.constructor | crates/kubesim-engine/src/lib.rs:155-161 | An engine starts without events or handlers. |
| Engines.Engine.AddHandler | crates/kubesim-engine/src/lib.rs:164-166 | The handler is called after those registered before it. |
| Engines.Engine.Schedule | crates/kubesim-engine/src/lib.rs:169-171 | Adds one event to the queue. |
| Engines.Engine.ScheduleRelative | crates/kubesim-engine/src/lib.rs:175-186 | Adds one event after the delay, or after one tick in logical mode, never in the past. |
| Engines.Engine.Dispatch | crates/kubesim-engine/src/lib.rs:206-213 | Every handler sees the event once, in order, in the world its predecessor left; all follow-ups are queued. |
| Engines.Engine.Step | crates/kubesim-engine/src/lib.rs:199-215 | Fires an event that no queued event precedes and sets the clock to its time; false exactly on an empty queue. |
| Engines.Engine.RunUntilWithBudget | crates/kubesim-engine/src/lib.rs:227-245 | The events processed form a run within time and budget; it stops early only on the wall clock. |
| Engines.StepTime | crates/kubesim-engine/src/lib.rs:199-215 | A step moves time forward, and leaves nothing overdue if and only if no handler scheduled into the past. |
| Engines.TimeNeverDecreases | crates/kubesim-engine/src/lib.rs:199-215 | Over every run of causal handlers time never goes back and events fire in time order. |
| Engines.EventsConserved | crates/kubesim-engine/src/lib.rs:199-215 | What has fired and what is queued is what was queued at first and what handlers have scheduled. |
| Drift.TryToDrain | crates/kubesim-karpenter/src/drift.rs:103-128 | Evicts the running pods that the budgets allow, all judged before the first goes; true if the node is empty or gone. |
| Drift.ForceToDrain | crates/kubesim-karpenter/src/drift.rs:131-139 | Evicts every pod of the node. |
| Drift.ForceDrainEmpties | crates/kubesim-karpenter/src/drift.rs:131-139 | A forced drain leaves no pod pointing to the node, and displaces running pods only. |
| Drift.ContinueAllAccounts | crates/kubesim-karpenter/src/drift.rs:158-182 | After the first phase an entry is draining before its deadline, or its node is gone. |
| Drift.ScanCatchesAll | crates/kubesim-karpenter/src/drift.rs:184-212 | After the second phase every drifted ready node is draining. |
| Drift.ScanIsSafe | crates/kubesim-karpenter/src/drift.rs:143-229 | Over one scan: removals match NodeTerminated events exactly, draining entries are distinct live nodes, none is past its deadline, and nothing is scheduled in the past. |
| Drift.ScanOrphansNobody | crates/kubesim-karpenter/src/drift.rs:143-229 | Every pod of a node that a scan removes is Pending and queued afterwards, otherwise unchanged. |
| Drift.DriftHandler.Handle | crates/kubesim-karpenter/src/drift.rs:143-229 | The handler does exactly one such scan for the consolidation event and nothing for other events. |
| Drift.RunHealthy | crates/kubesim-karpenter/src/drift.rs:143-229 | Accounting and drift list stay healthy over every engine run with respectful handlers around. |
| Drift.GoneByDeadline | crates/kubesim-karpenter/src/drift.rs:158-182 | Over every engine run a draining node stays on the list until it is gone, and is gone after any scan at or past its deadline. |
| Drift.EngineIsCausal | crates/kubesim-karpenter/src/drift.rs:143-229 | The drift handler never schedules into the past, so an engine of causal handlers stays causal with it. |
| Drift.GoneOnceOverdue | crates/kubesim-karpenter/src/drift.rs:143-229 | In such an engine a draining node is gone as soon as the clock has passed its deadline by more than one scan interval. |
| ReplicaSets.FindOwned | crates/kubesim-engine/src/replicaset.rs:82-88 | The first ReplicaSet of the owner in slot order. |
| ReplicaSets.CountOwnedPods | crates/kubesim-core/src/state.rs:101-105 | The number of Running or Pending pods of the owner. |
| ReplicaSets.CountColocated | crates/kubesim-engine/src/replicaset.rs:181-199 | Running replicas on the pod's node, zero without a live node. |
| ReplicaSets.UpdateDeletionCosts | crates/kubesim-engine/src/replicaset.rs:202-234 | Writes minus the co-located count to each listed pod, all computed before the first write. |
| ReplicaSets.VictimsAreReplicas | crates/kubesim-engine/src/replicaset.rs:127-172 | As many distinct replicas are chosen as there are too many. |
| ReplicaSets.ReconcileConverges | crates/kubesim-engine/src/replicaset.rs:90-178 | A reconcile ends with exactly the desired number of replicas, deletes the victims and nobody else, and leaves other owners' pods as they were. |
| ReplicaSets.ReconcileIsIdempotent | crates/kubesim-engine/src/replicaset.rs:90-178 | Repeating it adds and removes no pod and schedules nothing. |
| ReplicaSets.VictimsComeFirst | crates/kubesim-engine/src/replicaset.rs:127-172 | A running pod is deleted only after all pending ones, and strictly precedes every surviving running replica in the order of cost, co-location and age at selection. |
| ReplicaSets.FullestNodesFirst | crates/kubesim-engine/src/replicaset.rs:144-169 | A ReplicaSet that prefers emptying nodes deletes from its fullest nodes: a deleted running pod has at least as many co-located replicas as any survivor. |
| ReplicaSets.TwoPartlyEmptiedExactly | crates/kubesim-engine/src/replicaset.rs:127-169 | For a ReplicaSet without a strategy, some desired count leaves two nodes partly emptied if and only if the owner has running pods on them of which one on each goes before one on each in the deletion order. |
| ReplicaSets.HandleReconcile | crates/kubesim-engine/src/replicaset.rs:90-178 | The controller reconciles as above and asks for provisioning exactly on a scale-up. |
| DeletionCosts.CollectActive | crates/kubesim-engine/src/deletion_cost.rs:67-91 | Ready uncordoned nodes with running pods, with those pods, in slot order. |
| DeletionCosts.CheckProtected | crates/kubesim-engine/src/deletion_cost.rs:94-101 | True if and only if some pod of the group carries the do-not-disrupt label. |
| DeletionCosts.Rank | crates/kubesim-engine/src/deletion_cost.rs:215-261 | The groups in stable ascending order of the strategy's key. |
| DeletionCosts.RankingFacts | crates/kubesim-engine/src/deletion_cost.rs:103-148 | A ranking lists distinct active nodes, all of them unless the top-candidate limit cuts some. |
| DeletionCosts.DriftedTierIsEmpty | crates/kubesim-engine/src/deletion_cost.rs:162-211 | The tier meant for cordoned nodes is always empty. |
| DeletionCosts.PassRanksPods | crates/kubesim-engine/src/deletion_cost.rs:103-148 | After a pass each pod on a ranked node costs the base plus its node's rank, all other pods cost what they did, and nothing but costs has changed. |
| DeletionCosts.ReconcileCosts | crates/kubesim-engine/src/deletion_cost.rs:38-55 | The controller writes exactly these costs, and none without a strategy. |
| DeletionCosts.NodesEmptyInRankOrder | crates/kubesim-engine/src/replicaset.rs:127-169 | After a pass, a scale-down that deletes a pod of a ranked node deletes the owner's pods on all nodes ranked before, wherever its other pods are. |
| DeletionCosts.PartlyEmptiedExactly | crates/kubesim-engine/src/replicaset.rs:127-169 | After a pass the same, with the order given by the costs that ranks, or for pods without a rank their old costs, give before the pass. |
| DeletionCosts.AtMostOneRankedPartlyEmptied | crates/kubesim-engine/src/replicaset.rs:127-169 | At most one ranked node is left with some but not all of the owner's pods deleted. |
| DeletionCosts.AtMostOnePartlyEmptied | crates/kubesim-engine/src/replicaset.rs:127-169 | With all the owner's running pods on active nodes and no node beyond the cut, at most one node of all is left so. |
| DeletionCosts.UnrankedByOldCost | crates/kubesim-engine/src/deletion_cost.rs:150-211 | A pod on a node without a rank is deleted after or before a ranked pod as its old cost is larger or smaller than the rank. |
| DeletionCosts.CutLeavesTwoPartlyEmptied | crates/kubesim-engine/src/deletion_cost.rs:150-211 | A cluster with 52 active nodes in which the top-candidate cut leaves two nodes partly emptied. |
| Relocation.PlaceAll | crates/kubesim-karpenter/src/consolidation.rs:171-188 | First fit over the free slots succeeds or fails as computed, skipping pods that are gone. |
| Relocation.FirstFitFacts | crates/kubesim-karpenter/src/consolidation.rs:171-188 | A successful first fit moves each live pod once to a slot that passes its filters, and slots lose exactly the load of the moves. |
| Relocation.FirstFitRelocates | crates/kubesim-karpenter/src/consolidation.rs:171-188 | So the pods can be placed together on ready uncordoned nodes that stay, within each node's free capacity. |
| Relocation.DroppingKeepsRelocation | crates/kubesim-karpenter/src/consolidation.rs:798-834 | A joint placement survives dropping pods and leaving nodes. |
| Consolidation.FindEmptyNodes | crates/kubesim-karpenter/src/consolidation.rs:59-73 | Ready uncordoned nodes of the pool, old enough, not protected, without workload pods. |
| Consolidation.SortCandidates | crates/kubesim-karpenter/src/consolidation.rs:114-120 | Candidates in stable order of spot, disruption, pod count and creation time. |
| Consolidation.CandidatesFacts | crates/kubesim-karpenter/src/consolidation.rs:211-246 | The candidates are distinct disruptable nodes in ascending order of score, within the limit. |
| Consolidation.PodsCanReschedule | crates/kubesim-karpenter/src/consolidation.rs:129-192 | The workload pods of a node, if first fit places them on the nodes that stay. |
| Consolidation.FindUnderutilized | crates/kubesim-karpenter/src/consolidation.rs:211-283 | The plan of the single-node or multi-node strategy, with its timeout fallback. |
| Consolidation.UnderutilizedFacts | crates/kubesim-karpenter/src/consolidation.rs:211-283 | It drains distinct nodes completely; the single-node strategy drains at most one. |
| Consolidation.FindCostJustified | crates/kubesim-karpenter/src/consolidation.rs:350-426 | The plan of the cost policy for given decision ratios: candidates that reach the threshold, best first, cut, then tried greedily. |
| Consolidation.JustifiedFacts | crates/kubesim-karpenter/src/consolidation.rs:373-404 | It tries distinct disruptable nodes that reach the threshold, in descending order of ratio, within the limit. |
| Consolidation.CostJustifiedFacts | crates/kubesim-karpenter/src/consolidation.rs:406-426 | Its plan, too, drains distinct nodes completely, each one of those tried; the single-node strategy plans at most one. |
| Consolidation.ResolveBudgets | crates/kubesim-karpenter/src/consolidation.rs:578-619 | The caps of a pass, from the profile's budgets with the percentages in force and the pool's own budget. |
| Consolidation.CapsFacts | crates/kubesim-karpenter/src/consolidation.rs:578-619 | Once a budget names reasons, each cap is the largest budget that concerns its reason, and zero without one; else the last budget caps every reason, or the pool's own if there is none. |
| Consolidation.EvaluateFacts | crates/kubesim-karpenter/src/consolidation.rs:556-676 | Under every policy a pass stays within its total, drains no more nodes than the cap for underutilized ones, and never drains a node twice. |
| Consolidation.SimulateAndValidate | crates/kubesim-karpenter/src/consolidation.rs:698-786 | The shrink loop computes the prefix below. |
| Consolidation.ShrinkIsLongest | crates/kubesim-karpenter/src/consolidation.rs:698-786 | It returns the longest prefix of the actions that its first fit accepts. |
| Consolidation.ValidateBeforeExecute | crates/kubesim-karpenter/src/consolidation.rs:798-834 | Keeps the actions still valid besides those kept before. |
| Consolidation.SubplanRelocates | crates/kubesim-karpenter/src/consolidation.rs:798-834 | Dropping actions from a plan that can be relocated leaves one that can. |
| Consolidation.ValidatedHasWitness | crates/kubesim-karpenter/src/consolidation.rs:698-834 | Whatever well-formed plan is shrunk and validated, the outcome, and every plan left by dropping actions from it, has a joint placement of all workload pods of its drained nodes on ready uncordoned nodes outside it, passing the four filters and within free capacity; empty nodes in it are empty. |
| Consolidation.PlanHasWitness | crates/kubesim-karpenter/src/consolidation.rs:962-980 | So has the plan executed under each of the three policies, and it disrupts no more nodes than the pool's budget for the number of nodes there are. |
| Consolidation.PlanEventsInOrder | crates/kubesim-karpenter/src/consolidation.rs:991-1056 | The events of a plan fire strictly one after the other, one node at a time. |
| Consolidation.CordonAllFacts | crates/kubesim-karpenter/src/consolidation.rs:991-1056 | Execution cordons exactly the nodes of the plan. |
| Consolidation.DisruptionBudget | crates/kubesim-karpenter/src/consolidation.rs:680-686 | At least one node, and never more than there are when count or percentage is sane. |
| Consolidation.ComputeStateHash | crates/kubesim-karpenter/src/consolidation.rs:927-940 | The fingerprint, with 64-bit wrap-around. |
| Consolidation.ToldApart | crates/kubesim-karpenter/src/consolidation.rs:927-940 | States alike in nodes, pods and cordons are told apart if and only if 31 times the pending pods plus the allocated CPU differs, modulo 2^64. |
| Consolidation.BindIsNoticed | crates/kubesim-karpenter/src/consolidation.rs:927-940 | A bind changes the fingerprint if and only if the pod does not request exactly 31 millicores. |
| Consolidation.ConsolidationHandler.HandleLoop | crates/kubesim-karpenter/src/consolidation.rs:944-1075 | Skips an unchanged state, else plans, validates twice and executes; the polling interval stays between base and maximum. |
| InstanceTypes.Cheapest | crates/kubesim-karpenter/src/provisioner.rs:366-372 | A type that holds the bin at the lowest price, if and only if some type holds it. |
| InstanceTypes.DecisionsFit | crates/kubesim-karpenter/src/provisioner.rs:597-614 | Every decision buys a cheapest type that holds its bin. |
| InstanceTypes.Finalize | crates/kubesim-karpenter/src/provisioner.rs:362-380 | Decides every nonempty bin that some type holds, in order. |
| UniformBatches.CheckAllSame | crates/kubesim-karpenter/src/provisioner.rs:321-330 | True if and only if there are at least two pods and all are alike in requests, constraints and owner. |
| UniformBatches.ComputeMaxPerClaim | crates/kubesim-karpenter/src/provisioner.rs:261-281 | The least hostname skew, capped at one for a pod that repels itself. |
| UniformBatches.Deal | crates/kubesim-karpenter/src/provisioner.rs:350-361 | Round-robin dealing with exact totals. |
| UniformBatches.SharesAreEven | crates/kubesim-karpenter/src/provisioner.rs:347-361 | Every claim gets between one and the claim size, and no two claims differ by more than one pod. |
| UniformBatches.DealtMembers | crates/kubesim-karpenter/src/provisioner.rs:355-361 | Each pod is dealt to exactly one claim. |
| UniformBatches.PodIsPlaced | crates/kubesim-karpenter/src/provisioner.rs:332-383 | A pod of the batch is bought an instance if and only if some type holds, GPUs included, as many such pods as its claim received. |
| UniformBatches.UniformBatchIsPlaced | crates/kubesim-karpenter/src/provisioner.rs:332-383 | The batch is placed completely, each pod in one decision whose type holds it, if and only if some type holds, GPUs included, as many pods as the fullest claim received. |
| UniformBatches.BatchWithoutGpuIsPlaced | crates/kubesim-karpenter/src/provisioner.rs:332-383 | Without GPUs that is if and only if some type holds one pod; otherwise nothing is decided. |
| UniformBatches.RequestsNeverOverflow | crates/kubesim-karpenter/src/provisioner.rs:347-348 | Pods that request CPU or memory never overflow the ceiling division within half a word. |
| UniformBatches.OverflowsExactly | crates/kubesim-karpenter/src/provisioner.rs:337-348 | Within half a word the ceiling division overflows if and only if the pods request neither CPU nor memory, some type has their GPUs, and the batch and the hostname limit together exceed a word. |
| UniformBatches.ZeroRequestsOverflow | crates/kubesim-karpenter/src/provisioner.rs:347-348 | Unconstrained pods that request neither always overflow it. |
| UniformBatches.GpuBatchIsDropped | crates/kubesim-karpenter/src/provisioner.rs:339-380 | Two one-GPU pods that each fit a one-GPU type are put into one claim that no type holds, and dropped. |
| UniformBatches.PlanUniform | crates/kubesim-karpenter/src/provisioner.rs:332-383 | The fast path decides as above, or reports the overflow. |
| ClaimPacking.CheckConflicts | crates/kubesim-karpenter/src/provisioner.rs:184-215 | True if and only if required hostname anti-affinity forbids the pod on the claim, in either direction. |
| ClaimPacking.FindClaim | crates/kubesim-karpenter/src/provisioner.rs:424-509 | The first candidate that admits the pod among those the indices allow, giving up after three misses when constrained. |
| ClaimPacking.SwapFrontLabels | crates/kubesim-karpenter/src/provisioner.rs:534-552 | The move-to-front swap keeps the label index right. |
| ClaimPacking.SwapFrontRoom | crates/kubesim-karpenter/src/provisioner.rs:534-552 | The move-to-front swap keeps the owner index right. |
| ClaimPacking.MoveToFront | crates/kubesim-karpenter/src/provisioner.rs:534-552 | Swaps the claim with the first one and both indices with it. |
| ClaimPacking.PlaceOn | crates/kubesim-karpenter/src/provisioner.rs:496-552 | Adds the pod to a claim, updates both indices and moves the claim to the front. |
| ClaimPacking.OpenFor | crates/kubesim-karpenter/src/provisioner.rs:555-589 | Opens a claim for the pod and enters it into both indices. |
| ClaimPacking.PackKeepsIndices | crates/kubesim-karpenter/src/provisioner.rs:409-413 | After any packing the label index lists exactly the claims that hold a pod with the label, and no index is out of range. |
| ClaimPacking.ExcludedExactly | crates/kubesim-karpenter/src/provisioner.rs:437-458 | A claim is excluded exactly when it holds a pod with a label of the pod or of one of its required hostname anti-affinity selectors. |
| ClaimPacking.RepelledIsExcluded | crates/kubesim-karpenter/src/provisioner.rs:437-458 | The label index never offers a claim with a pod that the new pod repels by a nonempty selector. |
| ClaimPacking.PackKeepsRoom | crates/kubesim-karpenter/src/provisioner.rs:511-592 | For an owner whose pods share a hostname spread, the owner index lists exactly its claims below the skew, once each, and no claim exceeds the skew or one. |
| ClaimPacking.PackKeepsClaims | crates/kubesim-karpenter/src/provisioner.rs:414-593 | Claims are disjoint, their totals and per-owner counts exact, their pods compatible; unless the pool limit stops it every pod is packed. |
| ClaimPacking.PackWithinLimit | crates/kubesim-karpenter/src/provisioner.rs:553-592 | Each claim opened counts as a node, and a node limit respected before is respected after. |
| ClaimPacking.PackingIsSound | crates/kubesim-karpenter/src/provisioner.rs:385-614 | Every decision of a packing holds compatible pods within their spread on a type that holds them, and no pod is in two decisions. |
| ClaimPacking.PackedIsServed | crates/kubesim-karpenter/src/provisioner.rs:385-614 | A pod is bought an instance if and only if the packing reached it and some type holds the pod alone. |
| ClaimPacking.PodIsServed | crates/kubesim-karpenter/src/provisioner.rs:385-614 | Unless the node limit stops the packing, each listed pod is bought an instance if and only if some type holds it alone. |
| ClaimPacking.PackPods | crates/kubesim-karpenter/src/provisioner.rs:385-593 | The loop packs exactly as above and stops at the pool's limit. |
| Provisioning.BatchPendingPods | crates/kubesim-karpenter/src/provisioner.rs:39-75 | Pending pods that match the pool, grouped by required labels, toleration keys and GPUs. |
| Provisioning.BatchesPartition | crates/kubesim-karpenter/src/provisioner.rs:39-75 | Each eligible pod is in exactly the group of its key, once, and groups are not empty. |
| Provisioning.UniformServes | crates/kubesim-karpenter/src/provisioner.rs:332-383 | Decisions of the fast path serve distinct live pods of the batch with a type that holds them. |
| Provisioning.ClaimRespectsHosts | crates/kubesim-karpenter/src/provisioner.rs:332-363 | A claim of the fast path respects hostname anti-affinity if and only if it holds one pod, or none that the pods of the batch repel. |
| Provisioning.UniformClaimsRespectHosts | crates/kubesim-karpenter/src/provisioner.rs:261-281 | When the pods of a uniform batch also share their labels, the fast path respects hostname anti-affinity and spread. |
| Provisioning.DifferentLabelsShareAHost | crates/kubesim-karpenter/src/provisioner.rs:332-380 | Two pending pods of one owner, alike but for their labels, and a type: the fast path puts both on one instance although they repel. |
| Provisioning.ProvisioningIsSound | crates/kubesim-karpenter/src/provisioner.rs:290-614 | Over a whole pass every decision serves one batch with a type that holds its pods, and no pod is in two decisions. |
| Provisioning.GroupsAreDisjoint | crates/kubesim-karpenter/src/provisioner.rs:39-75 | The groups are disjoint in whatever order they are visited. |
| Provisioning.PassServesPending | crates/kubesim-karpenter/src/provisioner.rs:290-614 | In an accounted cluster nodes are bought for Pending pods of the pool only, and for no pod twice, in whatever order the groups are visited. |
| Provisioning.Provision | crates/kubesim-karpenter/src/provisioner.rs:290-614 | One pass over all groups in some order decides as above. |

## Left out

- Arena indices and generations are 32-bit in the code and wrap after 2^32 reuses of a slot; here they are natural numbers.
- Resources saturate at their machine width as in the code; simulation times, counters, weights and summed requests of a claim are unbounded, except the ceiling division of the fast path and the state hash.
- Scores, utilisation and prices are computed over reals or exact integers instead of binary floating point.
- Scoring.ScoreNode: its contract names the score function of the plugin, whose values have no law of their own; the laws are about what totals and choice make of them, and that the cached chain computes the same.
- Scheduling.ScheduleOneUncached: ties are broken by taking the last best node, as the code does without a random source; the seeded random choice among ties is not modelled.
- CachedScheduling.ScheduleOneCached: equality with the uncached chain needs selectors without commas and hard constraints with a skew of at least one, which is what the caches can serve; without that only the fit of a bound pod is promised.
- BatchScheduling.Scheduler.SchedulePendingFrom: the refinement is stated for preemption-free batches; with preemption the caches are not told about evictions, and only soundness of the store is promised.
- Caches.RunAgrees: a run has no evictions or node removals, which the caches are never told about; the code invalidates them around such changes.
- SpreadSkew.RunKeepsSkew: for keys that are unique per node; for other keys `SpreadSkew.RunKeepsSkewExactly` says when the limit holds, and `SpreadSkew.SharedDomainOverfills` shows a run that exceeds it.
- Scheduling for one fresh node, and the marking of saturated nodes beyond their effect on the filters.
- Engines.Engine.RunUntilWithBudget: the wall clock is a parameter that says what each check finds; handlers are functions on a value that contains their own state, and the clock is kept beside that value.
- Engines.Engine.Step: which of several earliest events fires first is open, as in a binary heap ordered by time alone.
- Drift.GoneByDeadline: the other handlers are assumed to keep the accounting, not to bring back removed nodes and to leave the drift list alone.
- Drift.GoneOnceOverdue: needs a scan to be scheduled within one interval of the deadline, as every scan leaves behind (`Drift.ScanPolls`).
- Drift.ForceDrainEmpties: pods of a forced drain may take budgets below their floor; that is the purpose of the deadline. `try_drain` also judges all pods before evicting any, so no floor is promised there.
- ReplicaSets.HandleReconcile: the other events of the controller only change the desired count or schedule a reconcile.
- DeletionCosts.ReconcileCosts: rescheduling of the periodic pass.
- Consolidation.ConsolidationHandler.HandleLoop: the percentages in force of scheduled budgets, the decision ratio of each node and the replacement actions are parameters, because ratios and prices are floating-point. The decision metrics are left out.
- Consolidation.PlanHasWitness: pods of replaced nodes need no place on existing nodes and are not part of the witness; a node may be both drained and replaced.
- Consolidation.ComputeStateHash: equal hashes are taken as an unchanged state, as the code does; which states with equal counts of nodes, pods and cordons collide is said by `Consolidation.ToldApart`, and nothing is claimed about the others.
- Drain.HandleNodeDrained: the node is terminated later whether or not budgets kept pods on it, so pods of a consolidated node may be orphaned.
- ClaimPacking.PackPods: the set of owners on a claim is never read and is left out.
- Provisioning.Provision: instance types come with effective capacities and prices; the catalog, the overhead table, the legacy fill of version 0.35, and the aggregate fields of a batch are left out. A hash map's iteration order is any order.
- ClusterStates.ClusterState.AddNode: ReplicaSets are added in the same way as nodes and have no operation of their own here.
- Methods of the controllers that need the accounting require it; it holds in every state reachable by admissible operations.
- The daemonset controller binds without a fit check and can overcommit a node, so the no-overcommit result is about scheduler steps.
- Completing a pod can mark an evicted, still queued pod as succeeded, which breaks the queue invariant, so completion is not among the modelled operations.
- Configuration loading, Python bindings, metrics, reports, traces and the conformance suites.
