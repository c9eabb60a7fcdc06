/** Scheduling a batch with caches and shortcuts, against the plain batch that
    runs the full uncached chain for every pod: skipping is right exactly
    where the chain would bind nothing. */
module BatchScheduling {
  import opened Types
  import opened Sequences
  import opened Arenas
  import opened ClusterModel
  import opened ClusterStates
  import opened Filters
  import opened Scoring
  import opened Preemption
  import opened SelectorKeys
  import opened Caches
  import opened Scheduling
  import opened CachedScheduling
  import opened SchedulingPass
  import opened Examples

  // ----- The plain batch -----

  datatype BatchState = BatchState(cluster: Cluster, bound: nat, unschedulable: nat, stopped: bool)

  /** Run the full chain for each pod in turn; stop at the first pod that is
      unschedulable after some pod has been bound. */
  ghost function PlainBatch(m: Cluster, ids: seq<PodId>, strategy: Strategy): (s: BatchState)
    requires Inv(m)
    ensures Inv(s.cluster) && SameButPlacement(m, s.cluster) && ExcessNotGrown(m, s.cluster)
  {
    if ids == [] then
      SameAsItself(m);
      BatchState(m, 0, 0, false)
    else
      var s, p := PlainBatch(m, ids[..|ids| - 1], strategy), ids[|ids| - 1];
      if s.stopped then s
      else
        StepKeeps(m, s.cluster, p, strategy);
        var r := ScheduleOne(s.cluster, p, strategy);
        if r.Unschedulable? then s.(unschedulable := s.unschedulable + 1, stopped := s.bound > 0)
        else s.(cluster := Place(s.cluster, p, r), bound := s.bound + 1)
  }

  /** The plain batch never preempts. */
  ghost predicate PreemptionFree(m: Cluster, ids: seq<PodId>, strategy: Strategy)
    requires Inv(m)
  {
    forall k {:trigger ids[k]} :: 0 <= k < |ids| && !PlainBatch(m, ids[..k], strategy).stopped ==>
      !ScheduleOne(PlainBatch(m, ids[..k], strategy).cluster, ids[k], strategy).Preempted?
  }

  lemma PlainBatchNext(m: Cluster, ids: seq<PodId>, strategy: Strategy, k: nat)
    requires Inv(m) && k < |ids|
    ensures var s, s', r := PlainBatch(m, ids[..k], strategy), PlainBatch(m, ids[..k + 1], strategy),
                            ScheduleOne(PlainBatch(m, ids[..k], strategy).cluster, ids[k], strategy);
            if s.stopped then s' == s
            else if r.Unschedulable? then s' == s.(unschedulable := s.unschedulable + 1, stopped := s.bound > 0)
            else s' == s.(cluster := Place(s.cluster, ids[k], r), bound := s.bound + 1)
  {
    hide Inv, Place, ScheduleOne, SameButPlacement, ExcessNotGrown;
    assert ids[..k + 1][..k] == ids[..k];
  }

  lemma {:induction false} StoppedStays(m: Cluster, ids: seq<PodId>, strategy: Strategy, k: nat)
    requires Inv(m) && k <= |ids| && PlainBatch(m, ids[..k], strategy).stopped
    ensures PlainBatch(m, ids, strategy) == PlainBatch(m, ids[..k], strategy)
    decreases |ids| - k
  {
    hide Inv, PlainBatch;
    if k == |ids| {
      assert ids[..k] == ids;
    } else {
      PlainBatchNext(m, ids, strategy, k);
      StoppedStays(m, ids, strategy, k + 1);
    }
  }

  // ----- When nothing is feasible -----

  ghost predicate NowhereFeasible(m: Cluster, pod: Pod) {
    forall n :: m.HasNode(n) ==> !IsFeasible(m, pod, n)
  }

  /** A pod with no feasible node is preempted for or unschedulable. */
  lemma NowhereMeansUnschedulable(m: Cluster, p: PodId, strategy: Strategy)
    requires Consistent(m.nodes) && (m.HasPod(p) ==> NowhereFeasible(m, m.Pod(p)))
    ensures !ScheduleOne(m, p, strategy).BoundTo?
  {
    if m.HasPod(p) {
      hide IsFeasible;
      BoundIsFeasible(m, m.Pod(p), strategy);
      forall n
        ensures !IsFeasible(m, m.Pod(p), n)
      {
        NotLiveNotFeasible(m, m.Pod(p), n);
      }
    }
  }

  lemma NotLiveNotFeasible(m: Cluster, pod: Pod, n: NodeId)
    ensures !m.HasNode(n) ==> !IsFeasible(m, pod, n)
  {
  }

  lemma UnschedulableMeansNowhere(m: Cluster, p: PodId, strategy: Strategy)
    requires Consistent(m.nodes) && m.HasPod(p) && ScheduleOne(m, p, strategy).Unschedulable?
    ensures NowhereFeasible(m, m.Pod(p))
  {
    hide IsFeasible;
    BoundIsFeasible(m, m.Pod(p), strategy);
  }

  /** Feasibility depends only on a pod's requests and scheduling constraints. */
  lemma SameFingerprint(m: Cluster, a: Pod, b: Pod)
    requires a.requests == b.requests && a.constraints == b.constraints && NowhereFeasible(m, a)
    ensures NowhereFeasible(m, b)
  {
    forall n | m.HasNode(n)
      ensures !IsFeasible(m, b, n)
    {
      assert !IsFeasible(m, a, n);
      assert PassesAffinity(m, a, m.Node(n)) == PassesAffinity(m, b, m.Node(n));
      assert PassesSpread(m, a, m.Node(n)) == PassesSpread(m, b, m.Node(n));
    }
  }

  /** From here on nothing is feasible: the plain batch binds no more pods. */
  lemma {:induction false} RestUnschedulable(m: Cluster, ids: seq<PodId>, strategy: Strategy, i: nat, k: nat)
    requires Inv(m) && i <= k <= |ids| && PreemptionFree(m, ids, strategy)
    requires var s := PlainBatch(m, ids[..i], strategy);
             !s.stopped && forall j :: i <= j < |ids| && s.cluster.HasPod(ids[j]) ==>
               NowhereFeasible(s.cluster, s.cluster.Pod(ids[j]))
    ensures var s, s' := PlainBatch(m, ids[..i], strategy), PlainBatch(m, ids[..k], strategy);
            && s'.cluster == s.cluster && s'.bound == s.bound
            && (s.bound == 0 ==> !s'.stopped && s'.unschedulable == s.unschedulable + (k - i))
    decreases k
  {
    hide PlainBatch, NowhereFeasible, ScheduleOne, Place, SameButPlacement, ExcessNotGrown, NodeAgrees, PodAgrees;
    if k > i {
      RestUnschedulable(m, ids, strategy, i, k - 1);
      PlainBatchNext(m, ids, strategy, k - 1);
      var s := PlainBatch(m, ids[..k - 1], strategy);
      if !s.stopped {
        NowhereMeansUnschedulable(s.cluster, ids[k - 1], strategy);
      }
    }
  }

  // ----- The candidate nodes -----

  predicate HasRoom(node: Node, minCpu: nat, minMem: nat) {
    node.Available().cpu >= minCpu && node.Available().mem >= minMem
  }

  /** Every schedulable node with room for the smallest request is a candidate. */
  ghost predicate CandidatesCover(m: Cluster, candidates: seq<NodeId>, minCpu: nat, minMem: nat) {
    forall n :: m.HasNode(n) && m.Node(n).Schedulable() && HasRoom(m.Node(n), minCpu, minMem) ==> n in candidates
  }

  /** The candidates are exactly those nodes. */
  ghost predicate CandidatesExact(m: Cluster, candidates: seq<NodeId>, minCpu: nat, minMem: nat) {
    forall n :: n in candidates <==> m.HasNode(n) && m.Node(n).Schedulable() && HasRoom(m.Node(n), minCpu, minMem)
  }

  /** No schedulable node has room for the smallest request. */
  ghost predicate OutOfRoom(m: Cluster, minCpu: nat, minMem: nat) {
    CandidatesExact(m, [], minCpu, minMem)
  }

  predicate AtLeast(pod: Pod, minCpu: nat, minMem: nat) {
    pod.requests.cpu >= minCpu && pod.requests.mem >= minMem
  }

  /** The least CPU and the least memory that a live pod of the batch requests. */
  function Least(m: Cluster, ids: seq<PodId>): (least: Option<(nat, nat)>)
    ensures forall p :: p in ids && m.HasPod(p) ==> least.Some? && AtLeast(m.Pod(p), least.value.0, least.value.1)
    ensures least.Some? ==> exists p :: p in ids && m.HasPod(p) && m.Pod(p).requests.cpu == least.value.0
    ensures least.Some? ==> exists p :: p in ids && m.HasPod(p) && m.Pod(p).requests.mem == least.value.1
  {
    if ids == [] then None
    else
      var front, last := ids[..|ids| - 1], ids[|ids| - 1];
      assert ids == front + [last];
      var rest := Least(m, front);
      if !m.HasPod(last) then rest
      else
        var r := m.Pod(last).requests;
        if rest.None? then Some((r.cpu, r.mem)) else Some((MinNat(rest.value.0, r.cpu), MinNat(rest.value.1, r.mem)))
  }

  /** Zero for a batch without live pods. */
  function MinCpu(m: Cluster, ids: seq<PodId>): nat {
    if Least(m, ids).Some? then Least(m, ids).value.0 else 0
  }

  function MinMem(m: Cluster, ids: seq<PodId>): nat {
    if Least(m, ids).Some? then Least(m, ids).value.1 else 0
  }

  lemma BatchAtLeast(m: Cluster, ids: seq<PodId>)
    ensures forall p :: p in ids && m.HasPod(p) ==> AtLeast(m.Pod(p), MinCpu(m, ids), MinMem(m, ids))
  {
    hide AtLeast;
  }

  lemma NoCandidateNowhere(m: Cluster, pod: Pod, minCpu: nat, minMem: nat)
    requires OutOfRoom(m, minCpu, minMem) && AtLeast(pod, minCpu, minMem)
    ensures NowhereFeasible(m, pod)
  {
    forall n | m.HasNode(n)
      ensures !IsFeasible(m, pod, n)
    {
      hide PassesOtherFilters;
      assert n !in [];
      if m.Node(n).Schedulable() {
        assert !HasRoom(m.Node(n), minCpu, minMem);
      }
    }
  }

  /** Binding only takes room away. */
  lemma BindKeepsCover(m: Cluster, p: PodId, n: NodeId, candidates: seq<NodeId>, minCpu: nat, minMem: nat)
    requires Inv(m) && CandidatesCover(m, candidates, minCpu, minMem)
    ensures CandidatesCover(BindPod(m, p, n), candidates, minCpu, minMem)
  {
    var m' := BindPod(m, p, n);
    forall k | m'.HasNode(k) && m'.Node(k).Schedulable() && HasRoom(m'.Node(k), minCpu, minMem)
      ensures k in candidates
    {
      assert NodeAgrees(m, k);
      assert HasRoom(m.Node(k), minCpu, minMem);
    }
  }

  /** `retain` the candidates that still have room. */
  function StillRoom(m: Cluster, candidates: seq<NodeId>, minCpu: nat, minMem: nat): seq<NodeId> {
    if candidates == [] then []
    else
      var last := candidates[|candidates| - 1];
      StillRoom(m, candidates[..|candidates| - 1], minCpu, minMem) +
      (if m.HasNode(last) && HasRoom(m.Node(last), minCpu, minMem) then [last] else [])
  }

  lemma {:induction false} StillRoomFacts(m: Cluster, candidates: seq<NodeId>, minCpu: nat, minMem: nat)
    ensures forall n :: n in StillRoom(m, candidates, minCpu, minMem) <==>
                        n in candidates && m.HasNode(n) && HasRoom(m.Node(n), minCpu, minMem)
  {
    if candidates != [] {
      StillRoomFacts(m, candidates[..|candidates| - 1], minCpu, minMem);
      assert candidates == candidates[..|candidates| - 1] + [candidates[|candidates| - 1]];
    }
  }

  // ----- What the refinement needs -----

  /** Without preemption a batch touches no pod but those it has reached. */
  lemma {:induction false} PlainUntouched(m: Cluster, ids: seq<PodId>, strategy: Strategy, k: nat, p: PodId)
    requires Inv(m) && k <= |ids| && PreemptionFree(m, ids, strategy) && p !in ids[..k] && m.HasPod(p)
    ensures PlainBatch(m, ids[..k], strategy).cluster.HasPod(p)
    ensures PlainBatch(m, ids[..k], strategy).cluster.Pod(p) == m.Pod(p)
  {
    hide PlainBatch, ScheduleOne, Inv;
    if k == 0 {
      PlainBatchEmpty(m, ids, strategy);
    } else {
      assert ids[..k] == ids[..k - 1] + [ids[k - 1]];
      PlainUntouched(m, ids, strategy, k - 1, p);
      PlainBatchNext(m, ids, strategy, k - 1);
    }
  }

  lemma PlainBatchEmpty(m: Cluster, ids: seq<PodId>, strategy: Strategy)
    requires Inv(m)
    ensures PlainBatch(m, ids[..0], strategy) == BatchState(m, 0, 0, false)
  {
  }

  // ----- When a batch never preempts -----

  /** Without a running pod of lower priority there is nothing to preempt. */
  lemma NothingToEvict(m: Cluster, p: PodId, strategy: Strategy)
    requires Inv(m) && m.HasPod(p)
    requires forall q :: m.HasPod(q) && m.Pod(q).phase == Running ==> m.Pod(q).priority >= m.Pod(p).priority
    ensures !ScheduleOne(m, p, strategy).Preempted?
  {
    ScheduleIsJustified(m, p, strategy);
    BoundIsFeasible(m, m.Pod(p), strategy);
    var r := ScheduleOne(m, p, strategy);
    if r.Preempted? {
      EmptyVictims(m, p, r.node, r.victims);
    }
  }

  lemma EmptyVictims(m: Cluster, p: PodId, n: NodeId, victims: seq<PodId>)
    requires Inv(m) && Justified(m, p, Preempted(n, victims))
    requires forall q :: m.HasPod(q) && m.Pod(q).phase == Running ==> m.Pod(q).priority >= m.Pod(p).priority
    ensures IsFeasible(m, m.Pod(p), n)
  {
    assert victims == [] || victims[0] in victims;
    ChosenVictims(m, p, n, victims);
    PreemptionIsBest(m, m.Pod(p));
  }

  /** Listed pods come in descending priority and no running pod is below them. */
  ghost predicate NoneBelow(m: Cluster, ids: seq<PodId>) {
    && SortedBy(ids, ByDescendingPriority(m))
    && (forall p, q :: p in ids && m.HasPod(p) && m.HasPod(q) && m.Pod(q).phase == Running ==>
        m.Pod(q).priority >= m.Pod(p).priority)
  }

  lemma {:induction false} PlainRunning(m: Cluster, ids: seq<PodId>, strategy: Strategy, k: nat, q: PodId)
    requires Inv(m) && k <= |ids| && PreemptionFree(m, ids[..k], strategy)
    requires m.HasPod(q) && q !in ids[..k]
    ensures PlainBatch(m, ids[..k], strategy).cluster.HasPod(q)
    ensures PlainBatch(m, ids[..k], strategy).cluster.Pod(q) == m.Pod(q)
  {
    assert ids[..k][..k] == ids[..k];
    PlainUntouched(m, ids[..k], strategy, k, q);
  }

  /** Such a batch is free of preemption. */
  lemma {:induction false} NoneBelowMeansPreemptionFree(m: Cluster, ids: seq<PodId>, strategy: Strategy)
    requires Inv(m) && NoneBelow(m, ids)
    ensures PreemptionFree(m, ids, strategy)
  {
    hide ScheduleOne, PlainBatch, SameButPlacement, ExcessNotGrown, NodeAgrees, PodAgrees, QueueAgrees, Consistent;
    if ids != [] {
      var front, last := ids[..|ids| - 1], ids[|ids| - 1];
      assert ids == front + [last];
      NoneBelowMeansPreemptionFree(m, front, strategy);
      LastNotPreempting(m, ids, strategy);
      hide NoneBelow;
      forall k {:trigger ids[k]} | 0 <= k < |ids| && !PlainBatch(m, ids[..k], strategy).stopped
        ensures !ScheduleOne(PlainBatch(m, ids[..k], strategy).cluster, ids[k], strategy).Preempted?
      {
        if k < |front| {
          assert front[..k] == ids[..k] && front[k] == ids[k];
        }
      }
    }
  }

  lemma LastNotPreempting(m: Cluster, ids: seq<PodId>, strategy: Strategy)
    requires Inv(m) && ids != [] && NoneBelow(m, ids) && PreemptionFree(m, ids[..|ids| - 1], strategy)
    ensures !ScheduleOne(PlainBatch(m, ids[..|ids| - 1], strategy).cluster, ids[|ids| - 1], strategy).Preempted?
  {
    hide PlainBatch, SchedulePod, PreemptionFree, ExcessNotGrown, NodeAgrees, PodAgrees, QueueAgrees, Consistent,
         NoneBelow, SameButPlacement;
    var k := |ids| - 1;
    var now, p := PlainBatch(m, ids[..k], strategy).cluster, ids[k];
    if now.HasPod(p) {
      forall q | now.HasPod(q) && now.Pod(q).phase == Running
        ensures now.Pod(q).priority >= now.Pod(p).priority
      {
        RunningAbove(m, ids, strategy, now, q);
      }
      NothingToEvict(now, p, strategy);
    }
  }

  lemma RunningAbove(m: Cluster, ids: seq<PodId>, strategy: Strategy, now: Cluster, q: PodId)
    requires Inv(m) && ids != [] && NoneBelow(m, ids) && PreemptionFree(m, ids[..|ids| - 1], strategy)
    requires now == PlainBatch(m, ids[..|ids| - 1], strategy).cluster
    requires now.HasPod(ids[|ids| - 1]) && now.HasPod(q) && now.Pod(q).phase == Running
    ensures now.Pod(q).priority >= now.Pod(ids[|ids| - 1]).priority
  {
    hide PlainBatch, ScheduleOne, PreemptionFree, ExcessNotGrown, NodeAgrees, PodAgrees, QueueAgrees, Consistent;
    var k := |ids| - 1;
    var p := ids[k];
    assert p in ids && p in m.pods.live.Keys && q in m.pods.live.Keys;
    SameRequests(m, now, p);
    SameRequests(m, now, q);
    if q in ids[..k] {
      var j :| 0 <= j < k && ids[j] == q;
      assert ByDescendingPriority(m)(ids[j], ids[k]);
    } else {
      PlainRunning(m, ids, strategy, k, q);
    }
  }

  lemma SameRequests(m: Cluster, m': Cluster, p: PodId)
    requires SameButPlacement(m, m')
    ensures m'.HasPod(p) <==> m.HasPod(p)
    ensures m.HasPod(p) ==> m'.Pod(p).requests == m.Pod(p).requests && m'.Pod(p).priority == m.Pod(p).priority
  {
    assert p in m'.pods.live.Keys <==> p in m.pods.live.Keys;
    assert m.HasPod(p) ==> Unplaced(m'.Pod(p)) == Unplaced(m.Pod(p));
  }

  // ----- The scheduler object -----

  /** Exact caches, no saturated nodes, and a pod the caches can serve that is still Pending. */
  ghost predicate Ready(c: CacheValue, m: Cluster, saturated: set<NodeId>, p: PodId) {
    && Trusted(c, m) && MinimaExact(c) && saturated == {}
    && (m.HasPod(p) ==> m.Pod(p).phase == Pending && Cacheable(m.Pod(p)))
  }

  /** A report reads only the labels of the pod and the node. */
  lemma ReportReadsLabels(c: CacheValue, pod: Pod, pod': Pod, node: Node, node': Node)
    requires pod.labels == pod'.labels && node.labels == node'.labels
    ensures PodBound(c, pod, node) == PodBound(c, pod', node')
  {
    hide Bumped, BumpedMin, ParseKey;
  }

  lemma BindReported(c: CacheValue, m: Cluster, p: PodId, n: NodeId)
    requires CanBind(m, p, n) && Trusted(c, m) && MinimaExact(c)
    ensures var m' := BindPod(m, p, n);
            && m'.HasPod(p) && m'.HasNode(n)
            && Trusted(PodBound(c, m'.Pod(p), m'.Node(n)), m') && MinimaExact(PodBound(c, m'.Pod(p), m'.Node(n)))
  {
    PodBoundAgrees(c, m, p, n);
    var m' := BindPod(m, p, n);
    ReportReadsLabels(c, m.Pod(p), m'.Pod(p), m.Node(n), m'.Node(n));
  }

  /** What the shortcuts and caches rely on: exact caches, no saturated nodes,
      distinct Pending pods that the caches can serve, and no preemption. */
  ghost predicate BatchReady(c: CacheValue, m: Cluster, saturated: set<NodeId>, ids: seq<PodId>, strategy: Strategy)
    requires Inv(m)
  {
    && Trusted(c, m) && MinimaExact(c) && saturated == {}
    && NoDuplicates(ids)
    && (forall p :: p in ids && m.HasPod(p) ==> m.Pod(p).phase == Pending && Cacheable(m.Pod(p)))
    && PreemptionFree(m, ids, strategy)
  }

  /** The batch so far is where the plain batch is, which has not stopped. */
  ghost predicate Following(
    m: Cluster, ids: seq<PodId>, strategy: Strategy, i: nat, now: Cluster, bound: nat, unschedulable: nat)
    requires Inv(m) && i <= |ids|
  {
    PlainBatch(m, ids[..i], strategy) == BatchState(now, bound, unschedulable, false)
  }

  /** Same cluster and same bound count as the plain batch. The unschedulable
      count is the same too, unless pods were bound and no node has room for the
      smallest request any more: then it is the number of all pods not bound. */
  ghost predicate Refines(m: Cluster, ids: seq<PodId>, strategy: Strategy, now: Cluster, bound: nat, unschedulable: nat)
    requires Inv(m)
  {
    var s := PlainBatch(m, ids, strategy);
    && now == s.cluster && bound == s.bound
    && unschedulable == if bound > 0 && OutOfRoom(now, MinCpu(m, ids), MinMem(m, ids)) then |ids| - bound
                        else s.unschedulable
  }

  lemma StillReady(
    c: CacheValue, m: Cluster, ids: seq<PodId>, strategy: Strategy, i: nat, c': CacheValue, now: Cluster, bound: nat,
    unschedulable: nat)
    requires Inv(m) && i < |ids| && BatchReady(c, m, {}, ids, strategy)
    requires Following(m, ids, strategy, i, now, bound, unschedulable)
    requires Trusted(c', now) && MinimaExact(c')
    ensures Ready(c', now, {}, ids[i])
  {
    hide Inv, Trusted, MinimaExact, Cacheable;
    assert ids[i] !in ids[..i];
    assert ids[i] in ids;
    var s := PlainBatch(m, ids[..i], strategy);
    hide PlainBatch, PreemptionFree;
    assert m.HasPod(ids[i]) <==> now.HasPod(ids[i]) by {
      assert now.pods.live.Keys == m.pods.live.Keys;
    }
    if m.HasPod(ids[i]) {
      PlainUntouched(m, ids, strategy, i, ids[i]);
    }
  }

  /** Out of candidates: the plain batch would bind nothing more. */
  lemma OutOfCandidates(
    c: CacheValue, m: Cluster, ids: seq<PodId>, strategy: Strategy, i: nat, now: Cluster, bound: nat,
    unschedulable: nat)
    requires Inv(m) && i <= |ids| && BatchReady(c, m, {}, ids, strategy)
    requires Following(m, ids, strategy, i, now, bound, unschedulable) && bound + unschedulable == i
    requires OutOfRoom(now, MinCpu(m, ids), MinMem(m, ids))
    ensures Refines(m, ids, strategy, now, bound, |ids| - bound)
  {
    BatchAtLeast(m, ids);
    hide Inv, Trusted, MinimaExact, Cacheable, PreemptionFree, OutOfRoom, AtLeast, NowhereFeasible, MinCpu, MinMem;
    var s := PlainBatch(m, ids[..i], strategy);
    hide PlainBatch;
    forall j | i <= j < |ids| && now.HasPod(ids[j])
      ensures NowhereFeasible(now, now.Pod(ids[j]))
    {
      assert ids[j] !in ids[..i] && ids[j] in ids;
      assert ids[j] in m.pods.live.Keys;
      PlainUntouched(m, ids, strategy, i, ids[j]);
      NoCandidateNowhere(now, now.Pod(ids[j]), MinCpu(m, ids), MinMem(m, ids));
    }
    RestUnschedulable(m, ids, strategy, i, |ids|);
    assert ids[..|ids|] == ids;
  }

  /** No running pod has lower priority than the pod. */
  ghost predicate NoRunningBelow(m: Cluster, p: PodId) {
    m.HasPod(p) ==> forall q :: m.HasPod(q) && m.Pod(q).phase == Running ==> m.Pod(q).priority >= m.Pod(p).priority
  }

  /** Out of room, the full chain binds no pod of the batch, and calls it
      unschedulable unless there is a pod of lower priority to evict. */
  lemma OutOfRoomUnschedulable(m: Cluster, ids: seq<PodId>, strategy: Strategy, now: Cluster, p: PodId)
    requires Sound(m, now) && OutOfRoom(now, MinCpu(m, ids), MinMem(m, ids)) && p in ids
    ensures Consistent(now.nodes)
    ensures !ScheduleOne(now, p, strategy).BoundTo?
    ensures NoRunningBelow(now, p) ==> ScheduleOne(now, p, strategy).Unschedulable?
  {
    SoundConsistent(m, now);
    BatchAtLeast(m, ids);
    SameRequests(m, now, p);
    hide Inv, SameButPlacement, ExcessNotGrown, OutOfRoom, MinCpu, MinMem, NowhereFeasible, SchedulePod, Consistent;
    if now.HasPod(p) {
      NoCandidateNowhere(now, now.Pod(p), MinCpu(m, ids), MinMem(m, ids));
      if NoRunningBelow(now, p) {
        NothingToEvict(now, p, strategy);
      }
    }
    NowhereMeansUnschedulable(now, p, strategy);
  }

  /** Until the plain batch stops, a batch in descending priority without running
      pods below it leaves nothing to evict for any pod that is to come. */
  lemma NoneBelowLater(m: Cluster, ids: seq<PodId>, strategy: Strategy, i: nat, j: nat)
    requires Inv(m) && NoneBelow(m, ids) && i <= j < |ids|
    ensures NoRunningBelow(PlainBatch(m, ids[..i], strategy).cluster, ids[j])
  {
    hide PlainBatch, PreemptionFree, ExcessNotGrown, SameButPlacement, Inv;
    var front, now := ids[..i], PlainBatch(m, ids[..i], strategy).cluster;
    var next := front + [ids[j]];
    assert next[..|next| - 1] == front;
    NoneBelowPart(m, ids, i, j);
    NoneBelowMeansPreemptionFree(m, front, strategy);
    if now.HasPod(ids[j]) {
      forall q | now.HasPod(q) && now.Pod(q).phase == Running
        ensures now.Pod(q).priority >= now.Pod(ids[j]).priority
      {
        RunningAbove(m, next, strategy, now, q);
      }
    }
  }

  lemma NoneBelowPart(m: Cluster, ids: seq<PodId>, i: nat, j: nat)
    requires NoneBelow(m, ids) && i <= j < |ids|
    ensures NoneBelow(m, ids[..i]) && NoneBelow(m, ids[..i] + [ids[j]])
  {
  }

  /** The full chain calls every pod unschedulable that the batch skips for want
      of candidates: after any part of a batch in descending priority without
      running pods below it, each pod to come is. */
  lemma SkippedAreUnschedulable(m: Cluster, ids: seq<PodId>, strategy: Strategy, i: nat, j: nat, now: Cluster)
    requires Inv(m) && NoneBelow(m, ids) && i <= j < |ids| && now == PlainBatch(m, ids[..i], strategy).cluster
    requires OutOfRoom(now, MinCpu(m, ids), MinMem(m, ids))
    ensures ScheduleOne(now, ids[j], strategy).Unschedulable?
  {
    hide NoneBelow, NoRunningBelow, ScheduleOne, PlainBatch, OutOfRoom, MinCpu, MinMem;
    NoneBelowLater(m, ids, strategy, i, j);
    OutOfRoomUnschedulable(m, ids, strategy, now, ids[j]);
  }

  /** Skipping a pod like the last unschedulable one: the chain would not bind it. */
  lemma SkipFollows(
    m: Cluster, ids: seq<PodId>, strategy: Strategy, i: nat, now: Cluster, unschedulable: nat, last: Pod)
    requires Inv(m) && i < |ids| && PreemptionFree(m, ids, strategy) && Consistent(now.nodes)
    requires Following(m, ids, strategy, i, now, 0, unschedulable)
    requires now.HasPod(ids[i]) && NowhereFeasible(now, last)
    requires now.Pod(ids[i]).requests == last.requests && now.Pod(ids[i]).constraints == last.constraints
    ensures ScheduleOne(now, ids[i], strategy).Unschedulable?
    ensures Following(m, ids, strategy, i + 1, now, 0, unschedulable + 1)
  {
    hide Inv, NowhereFeasible, ScheduleOne, Consistent, Place;
    PlainBatchNext(m, ids, strategy, i);
    hide PlainBatch;
    SameFingerprint(now, last, now.Pod(ids[i]));
    NowhereMeansUnschedulable(now, ids[i], strategy);
  }

  /** Running the chain on the next pod: the plain batch does the same. */
  lemma StepFollows(
    m: Cluster, ids: seq<PodId>, strategy: Strategy, i: nat, now: Cluster, bound: nat, unschedulable: nat)
    requires Inv(m) && i < |ids| && PreemptionFree(m, ids, strategy)
    requires Following(m, ids, strategy, i, now, bound, unschedulable) && Consistent(now.nodes)
    ensures var r := ScheduleOne(now, ids[i], strategy);
            && !r.Preempted?
            && (r.BoundTo? ==> Following(m, ids, strategy, i + 1, Place(now, ids[i], r), bound + 1, unschedulable))
            && (r.Unschedulable? && bound == 0 ==> Following(m, ids, strategy, i + 1, now, 0, unschedulable + 1))
            && (r.Unschedulable? && bound > 0 ==>
                  PlainBatch(m, ids, strategy) == BatchState(now, bound, unschedulable + 1, true))
  {
    hide Inv, ScheduleOne, Place, Consistent;
    PlainBatchNext(m, ids, strategy, i);
    hide PlainBatch;
    var r := ScheduleOne(now, ids[i], strategy);
    if r.Unschedulable? && bound > 0 {
      StoppedStays(m, ids, strategy, i + 1);
    }
  }

  /** What every batch step must keep: the store is sound, nothing but placement
      changed, and no node is more overcommitted than before. */
  ghost predicate Sound(m: Cluster, m': Cluster) {
    Inv(m') && SameButPlacement(m, m') && ExcessNotGrown(m, m')
  }

  lemma PlaceIsSound(m: Cluster, p: PodId, r: ScheduleResult)
    requires Inv(m) && Justified(m, p, r)
    ensures Sound(m, Place(m, p, r))
  {
    PlaceFacts(m, p, r);
  }

  lemma SoundTransitive(a: Cluster, b: Cluster, c: Cluster)
    requires Sound(a, b) && Sound(b, c)
    ensures Sound(a, c)
  {
    SameButPlacementTransitive(a, b, c);
  }

  lemma SelfSound(m: Cluster)
    requires Inv(m)
    ensures Sound(m, m)
  {
    SameAsItself(m);
  }

  lemma SoundSteps(a: Cluster, b: Cluster, c: Cluster)
    requires Sound(a, b) && Sound(b, c)
    ensures Sound(a, c) && Inv(c)
  {
    SoundTransitive(a, b, c);
  }

  lemma SoundConsistent(a: Cluster, b: Cluster)
    requires Sound(a, b)
    ensures Consistent(b.nodes)
  {
  }

  lemma StartsFollowing(c: CacheValue, m: Cluster, saturated: set<NodeId>, ids: seq<PodId>, strategy: Strategy)
    requires Inv(m)
    ensures BatchReady(c, m, saturated, ids, strategy) ==>
              saturated == {} && Trusted(c, m) && MinimaExact(c) && Following(m, ids, strategy, 0, m, 0, 0)
  {
    PlainBatchEmpty(m, ids, strategy);
  }

  lemma ReadyIsPreemptionFree(c: CacheValue, m: Cluster, saturated: set<NodeId>, ids: seq<PodId>, strategy: Strategy)
    requires Inv(m) && BatchReady(c, m, saturated, ids, strategy)
    ensures PreemptionFree(m, ids, strategy)
  {
  }

  lemma ExactAfterBind(m: Cluster, p: PodId, r: ScheduleResult, candidates: seq<NodeId>, minCpu: nat, minMem: nat)
    requires Inv(m) && r.BoundTo? && CandidatesExact(m, candidates, minCpu, minMem)
    ensures var m' := Place(m, p, r); CandidatesExact(m', StillRoom(m', candidates, minCpu, minMem), minCpu, minMem)
  {
    BindKeepsCover(m, p, r.node, candidates, minCpu, minMem);
    StillRoomFacts(Place(m, p, r), candidates, minCpu, minMem);
    hide Inv, HasRoom;
  }

  lemma RoomLeft(m: Cluster, candidates: seq<NodeId>, minCpu: nat, minMem: nat)
    requires CandidatesExact(m, candidates, minCpu, minMem)
    ensures OutOfRoom(m, minCpu, minMem) <==> candidates == []
  {
    assert candidates == [] || candidates[0] in candidates;
  }

  lemma FollowedToTheEnd(m: Cluster, ids: seq<PodId>, strategy: Strategy, now: Cluster, bound: nat, unschedulable: nat)
    requires Inv(m) && Following(m, ids, strategy, |ids|, now, bound, unschedulable) && bound + unschedulable == |ids|
    ensures Refines(m, ids, strategy, now, bound, unschedulable)
  {
    assert ids[..|ids|] == ids;
  }

  lemma StoppedWithRoom(m: Cluster, ids: seq<PodId>, strategy: Strategy, now: Cluster, bound: nat, unschedulable: nat)
    requires Inv(m) && PlainBatch(m, ids, strategy) == BatchState(now, bound, unschedulable, true)
    requires !OutOfRoom(now, MinCpu(m, ids), MinMem(m, ids))
    ensures Refines(m, ids, strategy, now, bound, unschedulable)
  {
  }

  // ----- A batch that is counted differently -----

  const ONE_CPU := Resources(1, 0, 0, 0)

  function SeatPod(): Pod {
    Pod(ONE_CPU, Pending, None, Constraints([], [], [], []), None, 0, 0, [], false, false, None)
  }

  function SeatNode(): Node {
    Node("t", ONE_CPU, NO_RESOURCES, [], true, [], [], false, false, 0, "", false)
  }

  const THREE_PODS: seq<PodId> := [Handle(0, 0), Handle(1, 0), Handle(2, 0)]

  /** A node with one CPU, and three pods that each want one. */
  function OneSeat(): Cluster {
    ClusterOf([SeatNode()], [SeatPod(), SeatPod(), SeatPod()], [], THREE_PODS)
  }

  lemma OneSeatInv()
    ensures Inv(OneSeat())
  {
    var nodes, pods := [SeatNode()], [SeatPod(), SeatPod(), SeatPod()];
    assert NodeLists(nodes[0], pods, 0);
    assert QueueLists(pods, THREE_PODS);
    ClusterOfInv(nodes, pods, [], THREE_PODS);
  }

  lemma OneSeatFacts()
    ensures var m := OneSeat();
            && (forall n :: m.HasNode(n) <==> n == Handle(0, 0)) && m.Node(Handle(0, 0)) == SeatNode()
            && (forall p :: m.HasPod(p) <==> p in THREE_PODS) && (forall p :: m.HasPod(p) ==> m.Pod(p) == SeatPod())
  {
  }

  lemma OneSeatReady(strategy: Strategy)
    requires Inv(OneSeat())
    ensures BatchReady(NOTHING_CACHED, OneSeat(), {}, THREE_PODS, strategy)
  {
    hide OneSeat, Inv, PreemptionFree, NoneBelow, Agrees;
    OneSeatFacts();
    NothingCachedAgrees(OneSeat());
    assert NoneBelow(OneSeat(), THREE_PODS) by {
      OneSeatNoneBelow();
    }
    NoneBelowMeansPreemptionFree(OneSeat(), THREE_PODS, strategy);
  }

  lemma OneSeatNoneBelow()
    ensures NoneBelow(OneSeat(), THREE_PODS)
  {
    hide OneSeat;
    OneSeatFacts();
  }

  lemma OneSeatMinimum()
    ensures MinCpu(OneSeat(), THREE_PODS) == 1 && MinMem(OneSeat(), THREE_PODS) == 0
  {
    hide OneSeat, Least;
    OneSeatFacts();
    assert THREE_PODS[0] in THREE_PODS;
  }

  lemma OneSeatFree(strategy: Strategy)
    requires Inv(OneSeat())
    ensures ScheduleOne(OneSeat(), Handle(0, 0), strategy) == BoundTo(Handle(0, 0))
  {
    hide OneSeat, Inv, SchedulePod;
    var m := OneSeat();
    assert Consistent(m.nodes) by {
      SelfSound(m);
      SoundConsistent(m, m);
    }
    OneSeatFacts();
    assert IsFeasible(m, SeatPod(), Handle(0, 0));
    hide IsFeasible, Consistent;
    BoundIsFeasible(m, SeatPod(), strategy);
    if n :| IsFeasible(m, SeatPod(), n) && n != Handle(0, 0) {
      NotLiveNotFeasible(m, SeatPod(), n);
    }
  }

  /** The first pod takes the seat. */
  function SeatTaken(): Cluster {
    BindPod(OneSeat(), Handle(0, 0), Handle(0, 0))
  }

  lemma BindEntries(m: Cluster, p: PodId, n: NodeId)
    requires CanBind(m, p, n)
    ensures var m' := BindPod(m, p, n);
            && (forall k :: m'.HasNode(k) <==> m.HasNode(k)) && (forall q :: m'.HasPod(q) <==> m.HasPod(q))
            && m'.Node(n) ==
               m.Node(n).(used := m.Node(n).used.SaturatingAdd(m.Pod(p).requests), pods := m.Node(n).pods + [p])
            && (forall q :: m.HasPod(q) && q != p ==> m'.Pod(q) == m.Pod(q))
  {
  }

  lemma NothingPlusOne()
    ensures NO_RESOURCES.SaturatingAdd(ONE_CPU) == ONE_CPU
  {
  }

  lemma SeatTakenFacts()
    ensures var m := SeatTaken();
            && m.Node(Handle(0, 0)) == SeatNode().(used := ONE_CPU, pods := [Handle(0, 0)])
            && (forall n :: m.HasNode(n) <==> n == Handle(0, 0))
            && m.HasPod(Handle(1, 0)) && m.Pod(Handle(1, 0)) == SeatPod()
  {
    hide OneSeat, BindPod, Resources.SaturatingAdd;
    var m, h := OneSeat(), Handle(0, 0);
    OneSeatFacts();
    assert THREE_PODS[0] == h && THREE_PODS[1] == Handle(1, 0);
    assert m.HasPod(h) && m.HasPod(Handle(1, 0)) && m.HasNode(h);
    NothingPlusOne();
    BindEntries(m, h, h);
    assert [] + [h] == [h];
  }

  lemma SeatTakenFull()
    ensures OutOfRoom(SeatTaken(), 1, 0) && NowhereFeasible(SeatTaken(), SeatPod())
  {
    hide SeatTaken;
    SeatTakenFacts();
    NoCandidateNowhere(SeatTaken(), SeatPod(), 1, 0);
  }

  lemma OneSeatFirst(strategy: Strategy)
    requires Inv(OneSeat())
    ensures PlainBatch(OneSeat(), THREE_PODS[..1], strategy) == BatchState(SeatTaken(), 1, 0, false)
  {
    var m, ids := OneSeat(), THREE_PODS;
    hide OneSeat, Inv, ScheduleOne, BindPod, PlainBatch, SameButPlacement, ExcessNotGrown;
    OneSeatFree(strategy);
    PlainBatchEmpty(m, ids, strategy);
    PlainBatchNext(m, ids, strategy, 0);
  }

  lemma OneSeatPlain(strategy: Strategy)
    requires Inv(OneSeat())
    ensures PlainBatch(OneSeat(), THREE_PODS, strategy) == BatchState(SeatTaken(), 1, 1, true)
  {
    var m, ids := OneSeat(), THREE_PODS;
    hide OneSeat, Inv, ScheduleOne, PlainBatch, Consistent, SameButPlacement, ExcessNotGrown, SeatTaken, Place;
    OneSeatReady(strategy);
    ReadyIsPreemptionFree(NOTHING_CACHED, m, {}, ids, strategy);
    OneSeatFirst(strategy);
    PlainBatchNext(m, ids, strategy, 1);
    assert Consistent(SeatTaken().nodes) by {
      StillConsistent(m, ids[..1], strategy);
    }
    SeatTakenFacts();
    SeatTakenFull();
    NowhereMeansUnschedulable(SeatTaken(), Handle(1, 0), strategy);
    StoppedStays(m, ids, strategy, 2);
  }

  lemma StillConsistent(m: Cluster, ids: seq<PodId>, strategy: Strategy)
    requires Inv(m)
    ensures Consistent(PlainBatch(m, ids, strategy).cluster.nodes)
  {
    hide PlainBatch;
  }

  /** One node with one CPU, three pods: the plain batch stops at the second pod
      and counts one unschedulable; the batch with shortcuts counts two. */
  lemma CountsDiffer(strategy: Strategy)
    ensures var m, ids := OneSeat(), THREE_PODS;
            && Inv(m) && BatchReady(NOTHING_CACHED, m, {}, ids, strategy)
            && PlainBatch(m, ids, strategy).bound == 1 && PlainBatch(m, ids, strategy).unschedulable == 1
            && forall now, bound, unschedulable ::
                 Refines(m, ids, strategy, now, bound, unschedulable) ==> bound == 1 && unschedulable == 2
  {
    hide OneSeat, Inv, BatchReady, PlainBatch, OutOfRoom, MinCpu, MinMem, SeatTaken;
    OneSeatInv();
    OneSeatReady(strategy);
    OneSeatPlain(strategy);
    SeatTakenFull();
    OneSeatMinimum();
  }

  class Scheduler {
    const strategy: Strategy
    const caches: SchedulingCaches
    var saturated: set<NodeId>

    constructor (strategy: Strategy)
      ensures caches.Valid() && caches.Contents() == NOTHING_CACHED && saturated == {} && this.strategy == strategy
    {
      this.strategy := strategy;
      caches := new SchedulingCaches();
      saturated := {};
    }

    /** Schedule one pod through the caches, place it and report the bind. */
    method ScheduleAndReport(state: ClusterState, p: PodId) returns (r: ScheduleResult)
      requires state.Valid() && Inv(state.Model()) && caches.Valid()
      modifies caches, state, state.nodes, state.pods
      ensures state.Valid() && caches.Valid()
      ensures state.Model() == Place(old(state.Model()), p, r) && Sound(old(state.Model()), state.Model())
      ensures old(Ready(caches.Contents(), state.Model(), saturated, p)) ==>
                && r == ScheduleOne(old(state.Model()), p, strategy)
                && (!r.Preempted? ==> Trusted(caches.Contents(), state.Model()) && MinimaExact(caches.Contents()))
    {
      hide Arena.Valid, Trusted, MinimaExact, Cacheable, Sound, PodBound, ScheduleOne, Consistent, NodeAgrees,
           QueueAgrees;
      ghost var m := state.Model();
      ghost var ready := Ready(caches.Contents(), m, saturated, p);
      r := ScheduleOneCached(state, p, strategy, saturated, caches);
      PlaceIsSound(m, p, r);
      ghost var c := caches.Contents();
      if ready && r.BoundTo? {
        BindReported(c, m, p, r.node);
      }
      PlacePod(state, p, r);
      if !r.Unschedulable? {
        Report(state, p, r.node);
      }
    }

    method Report(state: ClusterState, p: PodId, n: NodeId)
      requires state.Valid() && caches.Valid()
      modifies caches
      ensures caches.Valid()
      ensures state.Model().HasPod(p) && state.Model().HasNode(n) ==>
                caches.Contents() == PodBound(old(caches.Contents()), state.Model().Pod(p), state.Model().Node(n))
    {
      hide Arena.Valid;
      var pod := state.pods.Find(p);
      var node := state.nodes.Find(n);
      if pod.Some? && node.Some? {
        caches.OnPodBound(pod.value, node.value);
      }
    }

    method SmallestRequests(state: ClusterState, ids: seq<PodId>) returns (minCpu: nat, minMem: nat)
      requires state.Valid()
      ensures minCpu == MinCpu(state.Model(), ids) && minMem == MinMem(state.Model(), ids)
    {
      hide Arena.Valid;
      ghost var m := state.Model();
      var any := false;
      minCpu, minMem := 0, 0;
      for i := 0 to |ids|
        invariant state.Model() == m
        invariant Least(m, ids[..i]) == if any then Some((minCpu, minMem)) else None
        invariant !any ==> minCpu == 0 && minMem == 0
      {
        assert ids[..i + 1][..i] == ids[..i];
        var found := state.pods.Find(ids[i]);
        if found.Some? {
          var r := found.value.requests;
          minCpu, minMem := if any then MinNat(minCpu, r.cpu) else r.cpu, if any then MinNat(minMem, r.mem) else r.mem;
          any := true;
        }
      }
      assert ids[..|ids|] == ids;
    }

    method CandidateNodes(state: ClusterState, minCpu: nat, minMem: nat) returns (candidates: seq<NodeId>)
      requires state.Valid()
      ensures CandidatesExact(state.Model(), candidates, minCpu, minMem)
    {
      hide Arena.Valid;
      ghost var m := state.Model();
      candidates := [];
      var nodeIds := state.nodes.Handles();
      for i := 0 to |nodeIds|
        invariant state.Model() == m
        invariant forall k :: 0 <= k < i && m.Node(nodeIds[k]).Schedulable() &&
                              HasRoom(m.Node(nodeIds[k]), minCpu, minMem) ==>
                    nodeIds[k] in candidates
        invariant forall n :: n in candidates ==>
                    m.HasNode(n) && m.Node(n).Schedulable() && HasRoom(m.Node(n), minCpu, minMem)
      {
        assert nodeIds[i] in nodeIds;
        var node := state.nodes.Find(nodeIds[i]);
        if node.value.Schedulable() && HasRoom(node.value, minCpu, minMem) {
          candidates := candidates + [nodeIds[i]];
        }
      }
      forall n | m.HasNode(n) && m.Node(n).Schedulable() && HasRoom(m.Node(n), minCpu, minMem)
        ensures n in candidates
      {
        assert n in nodeIds;
      }
    }

    method RetainCandidates(state: ClusterState, candidates: seq<NodeId>, minCpu: nat, minMem: nat)
      returns (retained: seq<NodeId>)
      requires state.Valid()
      ensures retained == StillRoom(state.Model(), candidates, minCpu, minMem)
    {
      hide Arena.Valid, HasRoom;
      ghost var m := state.Model();
      retained := [];
      for i := 0 to |candidates|
        invariant state.Model() == m
        invariant retained == StillRoom(m, candidates[..i], minCpu, minMem)
      {
        assert candidates[..i + 1][..i] == candidates[..i];
        var node := state.nodes.Find(candidates[i]);
        if node.Some? && HasRoom(node.value, minCpu, minMem) {
          retained := retained + [candidates[i]];
        }
      }
      assert candidates[..|candidates|] == candidates;
    }

    /** Schedule the next pod of the batch; after a bind, drop the nodes that
        are too full for any pod of the batch. */
    method ScheduleNext(state: ClusterState, ids: seq<PodId>, i: nat, candidates: seq<NodeId>, minCpu: nat, minMem: nat,
                        ghost c: CacheValue, ghost m: Cluster, ghost ready: bool, ghost bound: nat,
                        ghost unschedulable: nat)
      returns (r: ScheduleResult, retained: seq<NodeId>)
      requires state.Valid() && Inv(state.Model()) && caches.Valid() && Inv(m) && i < |ids| && Sound(m, state.Model())
      requires ready ==>
                 && saturated == {} && BatchReady(c, m, {}, ids, strategy)
                 && Following(m, ids, strategy, i, state.Model(), bound, unschedulable)
                 && Trusted(caches.Contents(), state.Model()) && MinimaExact(caches.Contents())
                 && minCpu == MinCpu(m, ids) && minMem == MinMem(m, ids) && candidates != []
                 && CandidatesExact(state.Model(), candidates, minCpu, minMem)
      modifies caches, state, state.nodes, state.pods
      ensures state.Valid() && caches.Valid() && Inv(state.Model()) && Sound(m, state.Model())
      ensures r.Unschedulable? ==> state.Model() == old(state.Model()) && retained == candidates
      ensures ready ==> !r.Preempted? && Trusted(caches.Contents(), state.Model()) && MinimaExact(caches.Contents())
      ensures ready && r.BoundTo? ==>
                && Following(m, ids, strategy, i + 1, state.Model(), bound + 1, unschedulable)
                && CandidatesExact(state.Model(), retained, minCpu, minMem)
      ensures ready && r.Unschedulable? ==>
                && (bound == 0 ==> Following(m, ids, strategy, i + 1, state.Model(), 0, unschedulable + 1))
                && (bound > 0 ==> Refines(m, ids, strategy, state.Model(), bound, unschedulable + 1))
                && (state.Model().HasPod(ids[i]) ==> NowhereFeasible(state.Model(), state.Model().Pod(ids[i])))
    {
      hide Arena.Valid, Inv, Sound, Trusted, MinimaExact, BatchReady, Ready, Following, Refines;
      hide CandidatesExact, OutOfRoom, NowhereFeasible, ScheduleOne, Place, Consistent, MinCpu, MinMem, PlainBatch;
      ghost var now := state.Model();
      SoundConsistent(m, now);
      if ready {
        ReadyIsPreemptionFree(c, m, {}, ids, strategy);
        StillReady(c, m, ids, strategy, i, caches.Contents(), now, bound, unschedulable);
        StepFollows(m, ids, strategy, i, now, bound, unschedulable);
      }
      r := ScheduleAndReport(state, ids[i]);
      SoundSteps(m, now, state.Model());
      retained := candidates;
      if r.Unschedulable? {
        PlaceUnschedulable(now, ids[i], r);
        if ready && bound > 0 {
          RoomLeft(now, candidates, minCpu, minMem);
          StoppedWithRoom(m, ids, strategy, now, bound, unschedulable + 1);
        }
        if ready && now.HasPod(ids[i]) {
          UnschedulableMeansNowhere(now, ids[i], strategy);
        }
      } else if r.BoundTo? {
        if ready {
          ExactAfterBind(now, ids[i], r, candidates, minCpu, minMem);
        }
        retained := RetainCandidates(state, candidates, minCpu, minMem);
      }
    }

    /** The cached batch with its shortcuts. It is always sound; when it is
        ready it ends where the plain batch ends, with exact caches. */
    method SchedulePendingFrom(state: ClusterState, ids: seq<PodId>) returns (bound: nat, unschedulable: nat)
      requires state.Valid() && Inv(state.Model()) && caches.Valid()
      modifies caches, state, state.nodes, state.pods
      ensures state.Valid() && caches.Valid() && Sound(old(state.Model()), state.Model())
      ensures bound + unschedulable <= |ids|
      ensures old(BatchReady(caches.Contents(), state.Model(), saturated, ids, strategy)) ==>
                && Refines(old(state.Model()), ids, strategy, state.Model(), bound, unschedulable)
                && Trusted(caches.Contents(), state.Model()) && MinimaExact(caches.Contents())
    {
      hide Arena.Valid, Inv, Sound, Trusted, MinimaExact, BatchReady, Ready, Following, Refines;
      hide CandidatesExact, OutOfRoom, NowhereFeasible, ScheduleOne, Place, Consistent, MinCpu, MinMem, PlainBatch;
      ghost var m, c := state.Model(), caches.Contents();
      ghost var ready := BatchReady(c, m, saturated, ids, strategy);
      SelfSound(m);
      StartsFollowing(c, m, saturated, ids, strategy);
      bound, unschedulable := 0, 0;
      var minCpu, minMem := SmallestRequests(state, ids);
      var candidates := CandidateNodes(state, minCpu, minMem);
      var last: Option<(Resources, Constraints)> := None;
      ghost var lastPod: Option<Pod> := None;
      var i := 0;
      while i < |ids|
        invariant 0 <= i <= |ids| && bound + unschedulable == i
        invariant state.Valid() && caches.Valid() && Inv(state.Model()) && Sound(m, state.Model())
        invariant last.Some? ==> lastPod.Some? && last.value == (lastPod.value.requests, lastPod.value.constraints)
        invariant last.Some? ==> bound == 0
        invariant ready ==>
                    && saturated == {}
                    && Following(m, ids, strategy, i, state.Model(), bound, unschedulable)
                    && Trusted(caches.Contents(), state.Model()) && MinimaExact(caches.Contents())
                    && CandidatesExact(state.Model(), candidates, minCpu, minMem)
                    && (last.Some? ==> NowhereFeasible(state.Model(), lastPod.value))
      {
        ghost var now := state.Model();
        if candidates == [] {
          if ready {
            RoomLeft(now, candidates, minCpu, minMem);
            OutOfCandidates(c, m, ids, strategy, i, now, bound, unschedulable);
          }
          unschedulable := |ids| - bound;
          return;
        }
        var pod := state.pods.Find(ids[i]);
        if last.Some? && pod.Some? && pod.value.requests == last.value.0 && pod.value.constraints == last.value.1 {
          if ready {
            ReadyIsPreemptionFree(c, m, saturated, ids, strategy);
            SoundConsistent(m, now);
            SkipFollows(m, ids, strategy, i, now, unschedulable, lastPod.value);
          }
          unschedulable := unschedulable + 1;
          i := i + 1;
          continue;
        }
        var r;
        r, candidates := ScheduleNext(state, ids, i, candidates, minCpu, minMem, c, m, ready, bound, unschedulable);
        if r.Unschedulable? {
          unschedulable := unschedulable + 1;
          if bound > 0 {
            return;
          }
          if pod.Some? {
            last := Some((pod.value.requests, pod.value.constraints));
            lastPod := Some(pod.value);
          }
        } else {
          bound := bound + 1;
          last := None;
        }
        i := i + 1;
      }
      if ready {
        FollowedToTheEnd(m, ids, strategy, state.Model(), bound, unschedulable);
      }
    }
  }
}
