/** A scheduling pass over the pending queue: its accounting, which nodes it may
    overcommit (none that was not), and who may be evicted (nobody placed
    earlier in the pass). */
module SchedulingPass {
  import opened Types
  import opened Sequences
  import opened Arenas
  import opened ClusterModel
  import opened ClusterStates
  import opened Filters
  import opened Scoring
  import opened Preemption
  import opened Scheduling

  // ----- What placement never touches -----

  ghost predicate SameSlots<T>(t: Table<T>, t': Table<T>) {
    t'.live.Keys == t.live.Keys && t'.generations == t.generations && t'.free == t.free
  }

  /** Only phases, back-pointers, node lists, allocations and the queue may differ. */
  ghost predicate SameButPlacement(m: Cluster, m': Cluster) {
    && SameSlots(m.nodes, m'.nodes) && SameSlots(m.pods, m'.pods)
    && m'.replicaSets == m.replicaSets && m'.time == m.time && m'.pdbs == m.pdbs
    && (forall n :: m.HasNode(n) ==> Unloaded(m'.Node(n)) == Unloaded(m.Node(n)))
    && (forall p :: m.HasPod(p) ==> Unplaced(m'.Pod(p)) == Unplaced(m.Pod(p)))
  }

  /** No node's excess over its allocatable resources has grown. */
  ghost predicate ExcessNotGrown(m: Cluster, m': Cluster) {
    forall n :: m.HasNode(n) && m'.HasNode(n) ==> Excess(m'.Node(n)).FitsIn(Excess(m.Node(n)))
  }

  lemma SameButPlacementTransitive(a: Cluster, b: Cluster, c: Cluster)
    requires SameButPlacement(a, b) && SameButPlacement(b, c)
    ensures SameButPlacement(a, c)
    ensures ExcessNotGrown(a, b) && ExcessNotGrown(b, c) ==> ExcessNotGrown(a, c)
  {
    forall n | a.HasNode(n)
      ensures b.HasNode(n) && c.HasNode(n)
    {
      assert n in a.nodes.live.Keys;
    }
    forall p | a.HasPod(p)
      ensures b.HasPod(p) && c.HasPod(p)
    {
      assert p in a.pods.live.Keys;
    }
  }

  // ----- Evicting victims -----

  lemma EvictFacts(m: Cluster, p: PodId)
    requires Inv(m)
    ensures Inv(EvictPod(m, p)) && SameButPlacement(m, EvictPod(m, p)) && ExcessNotGrown(m, EvictPod(m, p))
    ensures forall q :: q != p && m.HasPod(q) ==> EvictPod(m, p).Pod(q) == m.Pod(q)
    ensures m.HasPod(p) && m.Pod(p).phase == Running ==> EvictPod(m, p).Pod(p).phase == Pending
  {
    hide Inv, SameButPlacement, ExcessNotGrown;
    EvictPodInv(m, p);
    if m.HasPod(p) {
      RunningHasNode(m, p);
      EvictPlacement(m, p);
    } else {
      SameAsItself(m);
    }
  }

  lemma SameAsItself(m: Cluster)
    ensures SameButPlacement(m, m) && ExcessNotGrown(m, m)
  {
  }

  lemma RunningHasNode(m: Cluster, p: PodId)
    requires Inv(m) && m.HasPod(p)
    ensures m.Pod(p).phase == Running <==> m.Pod(p).node.Some?
  {
    assert PodAgrees(m, p);
  }

  lemma EvictPlacement(m: Cluster, p: PodId)
    requires m.HasPod(p)
    ensures SameButPlacement(m, EvictPod(m, p)) && ExcessNotGrown(m, EvictPod(m, p))
    ensures forall q :: q != p && m.HasPod(q) ==> EvictPod(m, p).Pod(q) == m.Pod(q)
  {
  }

  lemma EvictOneMore(m: Cluster, m1: Cluster, freed: Resources, p: PodId, n: NodeId)
    requires Inv(m1) && SameButPlacement(m, m1) && ExcessNotGrown(m, m1)
    requires m.HasNode(n) && m1.RunsOn(p, n) && m.HasPod(p) && m1.Pod(p).requests == m.Pod(p).requests
    requires m1.HasNode(n) && m.Node(n).used == m1.Node(n).used.Plus(freed)
    ensures var m2 := EvictPod(m1, p);
            && Inv(m2) && SameButPlacement(m, m2) && ExcessNotGrown(m, m2)
            && m2.HasNode(n) && m.Node(n).used == m2.Node(n).used.Plus(freed.Plus(m.Pod(p).requests))
            && (forall q :: q != p && m1.HasPod(q) ==> m2.HasPod(q) && m2.Pod(q) == m1.Pod(q))
            && m2.HasPod(p) && m2.Pod(p).phase == Pending
  {
    RunningHasNode(m1, p);
    UnaccountExact(m1, p);
    hide Inv, SameSlots, ExcessNotGrown, Unaccount;
    EvictFacts(m1, p);
    SameButPlacementTransitive(m, m1, EvictPod(m1, p));
  }

  /** Evicting distinct pods of one node frees exactly the sum of their requests. */
  lemma {:induction false} EvictAllFacts(m: Cluster, victims: seq<PodId>, n: NodeId)
    requires Inv(m) && m.HasNode(n) && NoDuplicates(victims)
    requires forall v :: v in victims ==> m.RunsOn(v, n)
    ensures var m' := EvictAll(m, victims);
            && Inv(m') && SameButPlacement(m, m') && ExcessNotGrown(m, m')
            && m'.HasNode(n) && m.Node(n).used == m'.Node(n).used.Plus(TotalRequests(m.pods.live, victims))
            && (forall q :: q !in victims && m.HasPod(q) ==> m'.HasPod(q) && m'.Pod(q) == m.Pod(q))
            && (forall q :: q in victims ==> m'.HasPod(q) && m'.Pod(q).phase == Pending)
  {
    hide Inv, SameButPlacement, ExcessNotGrown, EvictPod;
    if victims == [] {
      SameAsItself(m);
    } else {
      var front, last := victims[..|victims| - 1], victims[|victims| - 1];
      assert victims == front + [last];
      assert last in victims && last !in front;
      EvictAllFacts(m, front, n);
      EvictOneMore(m, EvictAll(m, front), TotalRequests(m.pods.live, front), last, n);
    }
  }

  // ----- Arithmetic of a placement -----

  lemma FitArithmetic(node: Node, request: Resources)
    requires request.FitsIn(node.Available()) && node.used.FitsIn(WIDTH) && node.allocatable.FitsIn(WIDTH)
    ensures node.used.Plus(request).FitsIn(WIDTH)
    ensures Excess(node.(used := node.used.SaturatingAdd(request))).FitsIn(Excess(node))
  {
  }

  /** As long as nothing overflows, what evictions free is the exact sum. */
  lemma {:induction false} FreedExact(m: Cluster, available: Resources, victims: seq<PodId>)
    requires available.Plus(TotalRequests(m.pods.live, victims)).FitsIn(WIDTH)
    ensures FreedBy(m, available, victims) == available.Plus(TotalRequests(m.pods.live, victims))
  {
    if victims != [] {
      var front, last := victims[..|victims| - 1], victims[|victims| - 1];
      var freed, request := TotalRequests(m.pods.live, front), RequestOf(m.pods.live, last);
      assert TotalRequests(m.pods.live, victims) == freed.Plus(request);
      assert available.Plus(freed.Plus(request)) == available.Plus(freed).Plus(request);
      FreedExact(m, available, front);
      AddExact(available.Plus(freed), request);
    }
  }

  lemma AddExact(a: Resources, b: Resources)
    requires a.Plus(b).FitsIn(WIDTH)
    ensures a.SaturatingAdd(b) == a.Plus(b)
  {
  }

  lemma PreemptArithmetic(allocatable: Resources, left: Resources, freed: Resources, request: Resources)
    requires left.Plus(freed).FitsIn(WIDTH) && allocatable.FitsIn(WIDTH)
    ensures allocatable.SaturatingSub(left.Plus(freed)).Plus(freed).FitsIn(WIDTH)
    ensures request.FitsIn(allocatable.SaturatingSub(left.Plus(freed)).Plus(freed)) ==>
              && left.Plus(request).FitsIn(WIDTH)
              && left.Plus(request).SaturatingSub(allocatable).FitsIn(left.Plus(freed).SaturatingSub(allocatable))
  {
  }

  // ----- One step -----

  function Place(m: Cluster, p: PodId, r: ScheduleResult): Cluster {
    match r
    case BoundTo(n) => BindPod(m, p, n)
    case Preempted(n, victims) => BindPod(EvictAll(m, victims), p, n)
    case Unschedulable(_) => m
  }

  lemma BindFacts(m: Cluster, p: PodId, n: NodeId)
    requires Inv(m) && m.HasPod(p) && m.HasNode(n) && SumFits(m, p, n)
    ensures Inv(BindPod(m, p, n)) && SameButPlacement(m, BindPod(m, p, n))
    ensures forall q :: q != p && m.HasPod(q) ==> BindPod(m, p, n).Pod(q) == m.Pod(q)
    ensures m.Pod(p).phase == Pending ==> BindPod(m, p, n).RunsOn(p, n) && BindPod(m, p, n).Pod(p).phase == Running
    ensures m.Pod(p).phase != Pending ==> BindPod(m, p, n) == m
  {
    BindPodInv(m, p, n);
  }

  /** The victims of a chosen preemption run on its node, have lower priority
      and free enough. */
  lemma ChosenVictims(m: Cluster, p: PodId, n: NodeId, victims: seq<PodId>)
    requires Inv(m) && Justified(m, p, Preempted(n, victims))
    ensures m.HasNode(n) && NoDuplicates(victims)
    ensures forall v :: v in victims ==>
              m.RunsOn(v, n) && m.Pod(v).phase == Running && m.Pod(v).priority < m.Pod(p).priority
    ensures m.Pod(p).requests.FitsIn(FreedBy(m, m.Node(n).Available(), victims))
  {
    hide CandidateOn, Victims, Consistent;
    PreemptionIsBest(m, m.Pod(p));
    ChosenVictimsOn(m, p, n, victims);
  }

  lemma ChosenVictimsOn(m: Cluster, p: PodId, n: NodeId, victims: seq<PodId>)
    requires Inv(m) && m.HasPod(p) && m.HasNode(n)
    requires CandidateOn(m, m.Pod(p), n).Some? && CandidateOn(m, m.Pod(p), n).value.victims == victims
    ensures NoDuplicates(victims)
    ensures forall v :: v in victims ==>
              m.RunsOn(v, n) && m.Pod(v).phase == Running && m.Pod(v).priority < m.Pod(p).priority
    ensures m.Pod(p).requests.FitsIn(FreedBy(m, m.Node(n).Available(), victims))
  {
    hide Victims, PassesOtherFilters;
    VictimsFacts(m, m.Pod(p), m.Node(n));
    assert NodeAgrees(m, n);
    forall v | v in victims
      ensures m.RunsOn(v, n) && m.Pod(v).phase == Running
    {
      assert PodAgrees(m, v);
    }
  }

  /** One step of a pass keeps the accounting and never grows a node's excess.
      A placed pod runs; a running pod that loses its place has lower priority. */
  lemma PlaceFacts(m: Cluster, p: PodId, r: ScheduleResult)
    requires Inv(m) && Justified(m, p, r)
    ensures Inv(Place(m, p, r)) && SameButPlacement(m, Place(m, p, r)) && ExcessNotGrown(m, Place(m, p, r))
    ensures m.HasPod(p) && m.Pod(p).phase == Pending && !r.Unschedulable? ==>
              Place(m, p, r).RunsOn(p, r.node) && Place(m, p, r).Pod(p).phase == Running
    ensures forall q :: m.HasPod(q) && q != p && Place(m, p, r).Pod(q) != m.Pod(q) ==>
              && m.Pod(q).phase == Running && m.Pod(q).priority < m.Pod(p).priority
              && Place(m, p, r).Pod(q).phase == Pending
  {
    match r
    case Unschedulable(_) =>
    case BoundTo(n) =>
      assert NodeAgrees(m, n);
      FitArithmetic(m.Node(n), m.Pod(p).requests);
      BindFacts(m, p, n);
    case Preempted(n, victims) =>
      PreemptFacts(m, p, n, victims);
  }

  lemma PreemptFacts(m: Cluster, p: PodId, n: NodeId, victims: seq<PodId>)
    requires Inv(m) && Justified(m, p, Preempted(n, victims))
    ensures var m' := BindPod(EvictAll(m, victims), p, n);
            && Inv(m') && SameButPlacement(m, m') && ExcessNotGrown(m, m')
            && (m.Pod(p).phase == Pending ==> m'.RunsOn(p, n) && m'.Pod(p).phase == Running)
            && (forall q :: m.HasPod(q) && q != p && m'.Pod(q) != m.Pod(q) ==>
                  m.Pod(q).phase == Running && m.Pod(q).priority < m.Pod(p).priority && m'.Pod(q).phase == Pending)
  {
    hide Inv, BindPod, EvictAll, SameSlots, ExcessNotGrown;
    ChosenVictims(m, p, n, victims);
    EvictAllFacts(m, victims, n);
    PreemptRoom(m, p, n, victims);
    var e, m' := EvictAll(m, victims), BindPod(EvictAll(m, victims), p, n);
    BindFacts(e, p, n);
    PreemptExcess(m, e, p, n);
    SameButPlacementTransitive(m, e, m');
  }

  /** The evictions leave room for the preemptor. */
  lemma PreemptRoom(m: Cluster, p: PodId, n: NodeId, victims: seq<PodId>)
    requires Inv(m) && Justified(m, p, Preempted(n, victims))
    ensures var e := EvictAll(m, victims);
            && m.HasNode(n) && e.HasNode(n) && e.HasPod(p) && SumFits(e, p, n)
            && e.Node(n).used.Plus(e.Pod(p).requests).SaturatingSub(m.Node(n).allocatable).FitsIn(Excess(m.Node(n)))
  {
    assert m.HasNode(n) && NodeAgrees(m, n) by {
      ChosenVictims(m, p, n, victims);
    }
    hide Inv, EvictAll, SameSlots, ExcessNotGrown;
    ChosenVictims(m, p, n, victims);
    EvictAllFacts(m, victims, n);
    var e := EvictAll(m, victims);
    var node, freed := m.Node(n), TotalRequests(m.pods.live, victims);
    PreemptArithmetic(node.allocatable, e.Node(n).used, freed, m.Pod(p).requests);
    FreedExact(m, node.Available(), victims);
    assert e.Pod(p).requests == m.Pod(p).requests by {
      assert p !in victims;
    }
  }

  lemma PreemptExcess(m: Cluster, e: Cluster, p: PodId, n: NodeId)
    requires SameButPlacement(m, e) && ExcessNotGrown(m, e)
    requires e.HasNode(n) && m.HasNode(n) && e.HasPod(p) && SumFits(e, p, n)
    requires e.Node(n).used.Plus(e.Pod(p).requests).SaturatingSub(m.Node(n).allocatable).FitsIn(Excess(m.Node(n)))
    ensures ExcessNotGrown(m, BindPod(e, p, n))
  {
    assert Unloaded(e.Node(n)) == Unloaded(m.Node(n));
  }

  // ----- The pass -----

  datatype PassState = PassState(cluster: Cluster, bound: nat, unschedulable: nat)

  /** Schedule the pods of the queue one after the other. */
  ghost function Pass(m: Cluster, queue: seq<PodId>, strategy: Strategy): (s: PassState)
    requires Inv(m)
    ensures Inv(s.cluster) && SameButPlacement(m, s.cluster) && ExcessNotGrown(m, s.cluster)
    ensures s.bound + s.unschedulable == |queue|
  {
    if queue == [] then
      SameAsItself(m);
      PassState(m, 0, 0)
    else
      var s, p := Pass(m, queue[..|queue| - 1], strategy), queue[|queue| - 1];
      StepKeeps(m, s.cluster, p, strategy);
      var r := ScheduleOne(s.cluster, p, strategy);
      PassState(Place(s.cluster, p, r),
                s.bound + (if r.Unschedulable? then 0 else 1),
                s.unschedulable + (if r.Unschedulable? then 1 else 0))
  }

  lemma StepKeeps(m: Cluster, m1: Cluster, p: PodId, strategy: Strategy)
    requires Inv(m1) && SameButPlacement(m, m1) && ExcessNotGrown(m, m1)
    ensures var m2 := Place(m1, p, ScheduleOne(m1, p, strategy));
            Inv(m2) && SameButPlacement(m, m2) && ExcessNotGrown(m, m2)
  {
    ScheduleIsJustified(m1, p, strategy);
    hide Justified, SameButPlacement, ExcessNotGrown, Place;
    PlaceFacts(m1, p, ScheduleOne(m1, p, strategy));
    SameButPlacementTransitive(m, m1, Place(m1, p, ScheduleOne(m1, p, strategy)));
  }

  function ByDescendingPriority(m: Cluster): (PodId, PodId) -> bool {
    (a: PodId, b: PodId) => PriorityOf(m, a) >= PriorityOf(m, b)
  }

  /** The queue a pass works through: pending pods, highest priority first. */
  function PassQueue(m: Cluster): seq<PodId> {
    StableSort(m.pending, ByDescendingPriority(m))
  }

  /** Pending pods, each once, in descending priority. */
  ghost predicate Queueable(m: Cluster, queue: seq<PodId>) {
    && NoDuplicates(queue)
    && (forall p :: p in queue ==> m.HasPod(p) && m.Pod(p).phase == Pending)
    && SortedBy(queue, ByDescendingPriority(m))
  }

  lemma PassQueueIsQueueable(m: Cluster)
    requires Inv(m)
    ensures Queueable(m, PassQueue(m))
    ensures |PassQueue(m)| == |m.pending| && forall p :: p in PassQueue(m) <==> p in m.pending
  {
    hide Consistent;
    StableSortSorts(m.pending, ByDescendingPriority(m));
    PermutationFacts(PassQueue(m), m.pending);
  }

  lemma QueueablePrefix(m: Cluster, queue: seq<PodId>)
    requires Queueable(m, queue) && queue != []
    ensures Queueable(m, queue[..|queue| - 1])
    ensures queue[|queue| - 1] !in queue[..|queue| - 1]
    ensures forall p :: p in queue[..|queue| - 1] ==> p in queue
  {
  }

  /** What a pass has done to a pod so far. */
  ghost predicate Outcome(m: Cluster, m': Cluster, queue: seq<PodId>, p: PodId)
    requires m.HasPod(p) && m'.HasPod(p)
  {
    if p in queue then m'.Pod(p) == m.Pod(p) || m'.Pod(p).phase == Running
    else m'.Pod(p) == m.Pod(p) || (m.Pod(p).phase == Running && m'.Pod(p).phase == Pending)
  }

  ghost function RunningIn(m: Cluster, queue: seq<PodId>): set<PodId> {
    set p | p in queue && m.HasPod(p) && m.Pod(p).phase == Running
  }

  /** Queued pods end up bound or untouched; other pods are untouched or
      evicted; the bound count is the number of queued pods now running. */
  lemma {:induction false} PassOutcome(m: Cluster, queue: seq<PodId>, strategy: Strategy)
    requires Inv(m) && Queueable(m, queue)
    ensures var s := Pass(m, queue, strategy);
            && (forall p :: m.HasPod(p) ==> s.cluster.HasPod(p) && Outcome(m, s.cluster, queue, p))
            && s.bound == |RunningIn(s.cluster, queue)|
  {
    if queue != [] {
      var front, last := queue[..|queue| - 1], queue[|queue| - 1];
      assert queue == front + [last];
      QueueablePrefix(m, queue);
      PassOutcome(m, front, strategy);
      PassOutcomeStep(m, Pass(m, front, strategy), front, last, strategy);
    }
  }

  /** The step changed nothing but the placed pod and lower-priority running
      pods, which it made Pending. */
  ghost predicate StepEffect(m1: Cluster, m2: Cluster, last: PodId, placed: bool) {
    && SameButPlacement(m1, m2) && m1.HasPod(last) && m2.HasPod(last)
    && (if placed then m1.Pod(last).phase == Pending ==> m2.Pod(last).phase == Running else m2 == m1)
    && (forall q :: m1.HasPod(q) && q != last ==>
        m2.HasPod(q) && (m2.Pod(q) == m1.Pod(q) || LostPlace(m1, m2, last, q)))
  }

  predicate LostPlace(m1: Cluster, m2: Cluster, last: PodId, q: PodId)
    requires m1.HasPod(q) && m1.HasPod(last) && m2.HasPod(q)
  {
    m1.Pod(q).phase == Running && m1.Pod(q).priority < m1.Pod(last).priority && m2.Pod(q).phase == Pending
  }

  lemma ScheduleEffect(m1: Cluster, p: PodId, strategy: Strategy)
    requires Inv(m1) && m1.HasPod(p)
    ensures var r := ScheduleOne(m1, p, strategy); StepEffect(m1, Place(m1, p, r), p, !r.Unschedulable?)
  {
    var r := ScheduleOne(m1, p, strategy);
    ScheduleIsJustified(m1, p, strategy);
    PlaceFacts(m1, p, r);
    hide Justified, ScheduleOne, Inv, Consistent, Place;
    var m2 := Place(m1, p, r);
    assert Place(m1, p, r) == m1 || !r.Unschedulable? by {
      PlaceUnschedulable(m1, p, r);
    }
    assert p in m2.pods.live.Keys;
    forall q | m1.HasPod(q)
      ensures m2.HasPod(q)
    {
      assert q in m2.pods.live.Keys;
    }
  }

  lemma PlaceUnschedulable(m: Cluster, p: PodId, r: ScheduleResult)
    ensures r.Unschedulable? ==> Place(m, p, r) == m
  {
  }

  lemma PassOutcomeStep(m: Cluster, s: PassState, front: seq<PodId>, last: PodId, strategy: Strategy)
    requires Inv(s.cluster) && SameButPlacement(m, s.cluster) && Queueable(m, front + [last])
    requires forall p :: m.HasPod(p) ==> s.cluster.HasPod(p) && Outcome(m, s.cluster, front, p)
    requires s.bound == |RunningIn(s.cluster, front)|
    ensures var r := ScheduleOne(s.cluster, last, strategy);
            var m' := Place(s.cluster, last, r);
            && (forall p :: m.HasPod(p) ==> m'.HasPod(p) && Outcome(m, m', front + [last], p))
            && s.bound + (if r.Unschedulable? then 0 else 1) == |RunningIn(m', front + [last])|
            && (forall p :: p in front && s.cluster.HasPod(p) ==> m'.HasPod(p) && m'.Pod(p) == s.cluster.Pod(p))
  {
    assert last in front + [last];
    hide ScheduleOne, Inv, Consistent, Place, SameButPlacement, StepEffect, Outcome, RunningIn, SortedBy;
    ScheduleEffect(s.cluster, last, strategy);
    var r := ScheduleOne(s.cluster, last, strategy);
    StepTouches(m, s.cluster, Place(s.cluster, last, r), front, last, !r.Unschedulable?);
    OutcomeStep(m, s.cluster, Place(s.cluster, last, r), front, last, !r.Unschedulable?);
  }

  lemma OutcomeStep(m: Cluster, m1: Cluster, m2: Cluster, front: seq<PodId>, last: PodId, placed: bool)
    requires Queueable(m, front + [last]) && StepEffect(m1, m2, last, placed)
    requires forall p :: m.HasPod(p) ==> m1.HasPod(p) && Outcome(m, m1, front, p)
    requires forall p :: p in front ==> m1.HasPod(p) && m2.HasPod(p) && m2.Pod(p) == m1.Pod(p)
    ensures forall p :: m.HasPod(p) ==> m2.HasPod(p) && Outcome(m, m2, front + [last], p)
    ensures |RunningIn(m2, front + [last])| == |RunningIn(m1, front)| + (if placed then 1 else 0)
  {
    hide SameButPlacement;
    QueueablePrefix(m, front + [last]);
    assert (front + [last])[..|front|] == front;
    assert last in front + [last] && last !in front;
    assert Outcome(m, m1, front, last);
    forall p | m.HasPod(p)
      ensures m2.HasPod(p) && Outcome(m, m2, front + [last], p)
    {
      assert Outcome(m, m1, front, p);
      assert p in front + [last] <==> p in front || p == last;
    }
    RunningGrows(m1, m2, front, last, placed);
  }

  lemma RunningGrows(m1: Cluster, m2: Cluster, front: seq<PodId>, last: PodId, placed: bool)
    requires last !in front && m1.HasPod(last) && m2.HasPod(last)
    requires forall p :: p in front ==> m1.HasPod(p) && m2.HasPod(p) && m2.Pod(p) == m1.Pod(p)
    requires m2.Pod(last).phase == Running <==> placed
    ensures |RunningIn(m2, front + [last])| == |RunningIn(m1, front)| + (if placed then 1 else 0)
  {
    assert RunningIn(m2, front + [last]) == RunningIn(m1, front) + (if placed then {last} else {});
  }

  /** Pods placed earlier in the pass have at least the priority of the pod
      being placed, so the step leaves them where they are. */
  lemma StepTouches(m: Cluster, m1: Cluster, m2: Cluster, front: seq<PodId>, last: PodId, placed: bool)
    requires SameButPlacement(m, m1) && Queueable(m, front + [last]) && StepEffect(m1, m2, last, placed)
    ensures forall p :: p in front ==> m1.HasPod(p) && m2.HasPod(p) && m2.Pod(p) == m1.Pod(p)
  {
    var queue := front + [last];
    assert queue[|front|] == last && last in queue;
    forall p | p in front
      ensures m1.HasPod(p) && m2.HasPod(p) && m2.Pod(p) == m1.Pod(p)
    {
      var i :| 0 <= i < |front| && front[i] == p;
      assert queue[i] == p && p in queue && p != last;
      assert p in m1.pods.live.Keys;
      assert ByDescendingPriority(m)(queue[i], queue[|front|]);
      assert Unplaced(m1.Pod(p)) == Unplaced(m.Pod(p)) && Unplaced(m1.Pod(last)) == Unplaced(m.Pod(last));
    }
  }

  /** No pod bound in a pass loses its place later in it, whatever the pass preempts. */
  lemma {:induction false} BoundStaysBound(m: Cluster, queue: seq<PodId>, strategy: Strategy, i: nat, p: PodId)
    requires Inv(m) && Queueable(m, queue) && i <= |queue| && p in queue[..i]
    ensures Queueable(m, queue[..i])
    ensures Pass(m, queue[..i], strategy).cluster.HasPod(p) && Pass(m, queue, strategy).cluster.HasPod(p)
    ensures Pass(m, queue, strategy).cluster.Pod(p) == Pass(m, queue[..i], strategy).cluster.Pod(p)
    decreases |queue|
  {
    if i == |queue| {
      assert queue[..i] == queue;
      PassOutcome(m, queue, strategy);
      assert m.HasPod(p) by {
        assert p in queue;
      }
    } else {
      var front, last := queue[..|queue| - 1], queue[|queue| - 1];
      QueueablePrefix(m, queue);
      assert queue == front + [last] && front[..i] == queue[..i];
      BoundStaysBound(m, front, strategy, i, p);
      PassOutcome(m, front, strategy);
      PassOutcomeStep(m, Pass(m, front, strategy), front, last, strategy);
    }
  }

  /** Scheduling every pending pod: nothing is lost, and a cluster without
      overcommitted nodes has none afterwards, preemption or not. */
  lemma PassIsSafe(m: Cluster, strategy: Strategy)
    requires Inv(m)
    ensures var s := Pass(m, PassQueue(m), strategy);
            && Inv(s.cluster)
            && s.bound + s.unschedulable == |m.pending|
            && s.cluster.pods.live.Keys == m.pods.live.Keys
            && (forall n :: m.HasNode(n) && !m.Node(n).Overcommitted() ==>
                  s.cluster.HasNode(n) && !s.cluster.Node(n).Overcommitted())
            && s.bound == |RunningIn(s.cluster, PassQueue(m))|
  {
    hide Inv, Pass, PassQueue, Queueable, Outcome, SameButPlacement, ExcessNotGrown;
    PassQueueIsQueueable(m);
    PassOutcome(m, PassQueue(m), strategy);
    StaysUncommitted(m, Pass(m, PassQueue(m), strategy).cluster);
  }

  lemma StaysUncommitted(m: Cluster, m': Cluster)
    requires SameButPlacement(m, m') && ExcessNotGrown(m, m')
    ensures m'.pods.live.Keys == m.pods.live.Keys
    ensures forall n :: m.HasNode(n) && !m.Node(n).Overcommitted() ==> m'.HasNode(n) && !m'.Node(n).Overcommitted()
  {
    forall n | m.HasNode(n) && !m.Node(n).Overcommitted()
      ensures m'.HasNode(n) && !m'.Node(n).Overcommitted()
    {
      assert n in m'.nodes.live.Keys;
      assert Excess(m'.Node(n)).FitsIn(Excess(m.Node(n)));
      assert Unloaded(m'.Node(n)) == Unloaded(m.Node(n));
    }
  }

  // ----- The loop -----

  method PlacePod(state: ClusterState, p: PodId, r: ScheduleResult)
    requires state.Valid()
    modifies state, state.nodes, state.pods
    ensures state.Valid() && state.Model() == Place(old(state.Model()), p, r)
  {
    hide Arena.Valid, EvictAll, BindPod;
    match r {
      case BoundTo(n) =>
        var _ := state.BindPod(p, n);
      case Preempted(n, victims) =>
        EvictEach(state, victims);
        var _ := state.BindPod(p, n);
      case Unschedulable(_) =>
    }
  }

  method SortQueue(state: ClusterState) returns (queue: seq<PodId>)
    requires state.Valid()
    ensures queue == PassQueue(state.Model())
  {
    hide Arena.Valid;
    var ids := state.pendingQueue;
    var priorities := ReadPriorities(state, ids);
    var le := (a: PodId, b: PodId) => a in priorities && b in priorities && priorities[a] >= priorities[b];
    StableSortSame(ids, le, ByDescendingPriority(state.Model()));
    queue := StableSort(ids, le);
  }

  /** Schedule all pending pods in priority order, without caches. */
  method SchedulePending(state: ClusterState, strategy: Strategy) returns (bound: nat, unschedulable: nat)
    requires state.Valid() && Inv(state.Model())
    modifies state, state.nodes, state.pods
    ensures state.Valid()
    ensures var s := Pass(old(state.Model()), PassQueue(old(state.Model())), strategy);
            state.Model() == s.cluster && bound == s.bound && unschedulable == s.unschedulable
  {
    hide Arena.Valid, Inv, ScheduleOne, Place, PassQueue;
    ghost var m := state.Model();
    var queue := SortQueue(state);
    bound, unschedulable := 0, 0;
    for i := 0 to |queue|
      invariant state.Valid()
      invariant var s := Pass(m, queue[..i], strategy);
                state.Model() == s.cluster && bound == s.bound && unschedulable == s.unschedulable
    {
      assert queue[..i + 1][..i] == queue[..i];
      var r := ScheduleOneUncached(state, queue[i], strategy);
      PlacePod(state, queue[i], r);
      if r.Unschedulable? {
        unschedulable := unschedulable + 1;
      } else {
        bound := bound + 1;
      }
    }
    assert queue[..|queue|] == queue;
  }
}
