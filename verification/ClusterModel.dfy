/** The cluster state as a value, its operations, and the invariant they keep. */
module ClusterModel {
  import opened Types
  import opened Sequences
  import opened Arenas

  datatype Cluster = Cluster(
    nodes: Table<Node>,
    pods: Table<Pod>,
    replicaSets: Table<ReplicaSet>,
    time: nat,
    pending: seq<PodId>,
    pdbs: seq<PodDisruptionBudget>)
  {
    predicate HasNode(n: NodeId) { nodes.Has(n) }

    predicate HasPod(p: PodId) { pods.Has(p) }

    function Node(n: NodeId): Node
      requires HasNode(n)
    {
      nodes.live[n]
    }

    function Pod(p: PodId): Pod
      requires HasPod(p)
    {
      pods.live[p]
    }

    predicate RunsOn(p: PodId, n: NodeId) { HasPod(p) && Pod(p).node == Some(n) }
  }

  // ----- Accounting -----

  function RequestOf(pods: map<PodId, Pod>, p: PodId): Resources {
    if p in pods then pods[p].requests else NO_RESOURCES
  }

  /** Exact sum of the requests of the listed pods. */
  function TotalRequests(pods: map<PodId, Pod>, ids: seq<PodId>): Resources {
    if ids == [] then NO_RESOURCES
    else TotalRequests(pods, ids[..|ids| - 1]).Plus(RequestOf(pods, ids[|ids| - 1]))
  }

  lemma {:induction false} TotalRequestsSame(pods: map<PodId, Pod>, pods': map<PodId, Pod>, ids: seq<PodId>)
    requires forall p :: p in ids ==> RequestOf(pods, p) == RequestOf(pods', p)
    ensures TotalRequests(pods, ids) == TotalRequests(pods', ids)
  {
    if ids != [] {
      assert ids[|ids| - 1] in ids;
      TotalRequestsSame(pods, pods', ids[..|ids| - 1]);
    }
  }

  lemma {:induction false} TotalRequestsWithout(pods: map<PodId, Pod>, ids: seq<PodId>, p: PodId)
    requires NoDuplicates(ids) && p in ids
    ensures TotalRequests(pods, ids) == TotalRequests(pods, Without(ids, p)).Plus(RequestOf(pods, p))
  {
    var front, last := ids[..|ids| - 1], ids[|ids| - 1];
    if last == p {
      WithoutAbsent(front, p);
    } else {
      assert p in front by { assert ids == front + [last]; }
      TotalRequestsWithout(pods, front, p);
      var rest := Without(front, p);
      assert (rest + [last])[..|rest|] == rest;
    }
  }

  lemma TotalRequestsAppend(pods: map<PodId, Pod>, ids: seq<PodId>, p: PodId)
    ensures TotalRequests(pods, ids + [p]) == TotalRequests(pods, ids).Plus(RequestOf(pods, p))
  {
    assert (ids + [p])[..|ids|] == ids;
  }

  /** A pod in the list changes its request; the total changes by as much. */
  lemma TotalRequestsChange(pods: map<PodId, Pod>, pods': map<PodId, Pod>, ids: seq<PodId>, p: PodId)
    requires NoDuplicates(ids) && p in ids
    requires forall q :: q in ids && q != p ==> RequestOf(pods, q) == RequestOf(pods', q)
    ensures exists rest: Resources ::
      && TotalRequests(pods, ids) == rest.Plus(RequestOf(pods, p))
      && TotalRequests(pods', ids) == rest.Plus(RequestOf(pods', p))
  {
    TotalRequestsWithout(pods, ids, p);
    TotalRequestsWithout(pods', ids, p);
    WithoutMembers(ids, p);
    TotalRequestsSame(pods, pods', Without(ids, p));
    var rest := TotalRequests(pods, Without(ids, p));
    assert TotalRequests(pods, ids) == rest.Plus(RequestOf(pods, p));
  }

  /** The listed pods that are still there, in list order. */
  function LivePods(m: Cluster, pods: seq<PodId>): seq<PodId> {
    if pods == [] then []
    else
      LivePods(m, pods[..|pods| - 1]) + (if m.HasPod(pods[|pods| - 1]) then [pods[|pods| - 1]] else [])
  }

  lemma {:induction false} LivePodsFacts(m: Cluster, pods: seq<PodId>)
    ensures forall p :: p in LivePods(m, pods) <==> p in pods && m.HasPod(p)
    ensures NoDuplicates(pods) ==> NoDuplicates(LivePods(m, pods))
  {
    if pods != [] {
      var front, last := pods[..|pods| - 1], pods[|pods| - 1];
      LivePodsFacts(m, front);
      assert pods == front + [last];
      assert NoDuplicates(pods) ==> last !in front;
    }
  }

  /** What a pod is, apart from where it runs. */
  function Unplaced(pod: Pod): Pod { pod.(phase := Pending, node := None) }

  /** What a node is, apart from what it holds. */
  function Unloaded(node: Node): Node { node.(used := NO_RESOURCES, pods := []) }

  // ----- The invariant -----

  /** A live node accounts for exactly the pods that point back to it. */
  ghost predicate NodeAgrees(m: Cluster, n: NodeId)
    requires m.HasNode(n)
  {
    var node := m.Node(n);
    && NoDuplicates(node.pods)
    && (forall p :: p in node.pods <==> m.RunsOn(p, n))
    && node.used == TotalRequests(m.pods.live, node.pods)
    && node.used.FitsIn(WIDTH)
    && node.allocatable.FitsIn(WIDTH)
  }

  /** A pod has a node exactly while it runs. The node may be gone, but its
      handle was issued, so no node will ever get it again. */
  ghost predicate PodAgrees(m: Cluster, p: PodId)
    requires m.HasPod(p)
  {
    && (m.Pod(p).node.Some? <==> m.Pod(p).phase == Running)
    && (m.Pod(p).node.Some? ==> Issued(m.nodes, m.Pod(p).node.value))
  }

  /** The pending queue lists every Pending pod once and nothing else. */
  ghost predicate QueueAgrees(m: Cluster) {
    && NoDuplicates(m.pending)
    && (forall p :: p in m.pending <==> m.HasPod(p) && m.Pod(p).phase == Pending)
  }

  ghost predicate Inv(m: Cluster) {
    && Consistent(m.nodes)
    && Consistent(m.pods)
    && Consistent(m.replicaSets)
    && (forall n :: m.HasNode(n) ==> NodeAgrees(m, n))
    && (forall p :: m.HasPod(p) ==> PodAgrees(m, p))
    && QueueAgrees(m)
  }

  function EmptyCluster(): Cluster {
    Cluster(Empty(), Empty(), Empty(), 0, [], [])
  }

  // ----- Operations -----

  ghost function AddNode(m: Cluster, node: Node): Cluster
    requires Consistent(m.nodes)
  {
    m.(nodes := Insert(m.nodes, node))
  }

  function RemoveNode(m: Cluster, n: NodeId): Cluster {
    m.(nodes := Remove(m.nodes, n))
  }

  ghost function SubmitPod(m: Cluster, pod: Pod): Cluster
    requires Consistent(m.pods)
  {
    m.(pods := Insert(m.pods, pod.(phase := Pending, node := None)), pending := m.pending + [NextHandle(m.pods)])
  }

  predicate CanBind(m: Cluster, p: PodId, n: NodeId) {
    m.HasPod(p) && m.Pod(p).phase == Pending && m.HasNode(n)
  }

  function BindPod(m: Cluster, p: PodId, n: NodeId): Cluster {
    if !CanBind(m, p, n) then m
    else
      var pod, node := m.Pod(p), m.Node(n);
      m.(nodes := Update(m.nodes, n, node.(used := node.used.SaturatingAdd(pod.requests), pods := node.pods + [p])),
         pods := Update(m.pods, p, pod.(phase := Running, node := Some(n))),
         pending := Dequeue(m.pending, p))
  }

  /** Take a pod off the node it points to, if that node is still there. */
  function Unaccount(nodes: Table<Node>, p: PodId, pod: Pod): Table<Node> {
    if pod.node.Some? && nodes.Has(pod.node.value) then
      var node := nodes.live[pod.node.value];
      Update(nodes, pod.node.value,
             node.(used := node.used.SaturatingSub(pod.requests), pods := Without(node.pods, p)))
    else nodes
  }

  function RemovePod(m: Cluster, p: PodId): Cluster {
    if !m.HasPod(p) then m
    else
      m.(nodes := Unaccount(m.nodes, p, m.Pod(p)),
         pods := Remove(m.pods, p),
         pending := Dequeue(m.pending, p))
  }

  predicate CanEvict(m: Cluster, p: PodId) {
    m.HasPod(p) && m.Pod(p).phase == Running && m.Pod(p).node.Some?
  }

  function EvictPod(m: Cluster, p: PodId): Cluster {
    if !CanEvict(m, p) then m
    else
      m.(nodes := Unaccount(m.nodes, p, m.Pod(p)),
         pods := Update(m.pods, p, m.Pod(p).(phase := Pending, node := None)),
         pending := m.pending + [p])
  }

  /** Evict the listed pods one after the other. */
  function EvictAll(m: Cluster, ids: seq<PodId>): Cluster {
    if ids == [] then m else EvictPod(EvictAll(m, ids[..|ids| - 1]), ids[|ids| - 1])
  }

  /** A resize is attempted on a Running pod whose node is still there. */
  predicate CanResize(m: Cluster, p: PodId) {
    m.HasPod(p) && m.Pod(p).phase == Running && m.Pod(p).node.Some? && m.HasNode(m.Pod(p).node.value)
  }

  predicate ResizeFits(m: Cluster, p: PodId, requests: Resources)
    requires CanResize(m, p)
  {
    requests.FitsIn(m.Node(m.Pod(p).node.value).Available().SaturatingAdd(m.Pod(p).requests))
  }

  function ResizePod(m: Cluster, p: PodId, requests: Resources): Cluster {
    if !CanResize(m, p) then m
    else if !ResizeFits(m, p, requests) then
      m.(pods := Update(m.pods, p, m.Pod(p).(resizeStatus := Some(Infeasible))))
    else
      var pod, n := m.Pod(p), m.Pod(p).node.value;
      var node := m.Node(n);
      m.(nodes := Update(m.nodes, n, node.(used := node.used.SaturatingSub(pod.requests).SaturatingAdd(requests))),
         pods := Update(m.pods, p, pod.(requests := requests, resizeStatus := Some(Completed))))
  }

  function Cordon(m: Cluster, n: NodeId): Cluster {
    if m.HasNode(n) then m.(nodes := Update(m.nodes, n, m.Node(n).(cordoned := true))) else m
  }

  function SetDeletionCost(m: Cluster, p: PodId, cost: int): Cluster {
    if m.HasPod(p) then m.(pods := Update(m.pods, p, m.Pod(p).(deletionCost := Some(cost)))) else m
  }

  // ----- Each operation keeps the invariant -----

  lemma EmptyInv()
    ensures Inv(EmptyCluster())
  {
  }

  /** Adding a node keeps the invariant exactly when the node arrives empty. */
  lemma AddNodeInv(m: Cluster, node: Node)
    requires Inv(m)
    ensures Inv(AddNode(m, node)) <==>
            node.pods == [] && node.used == NO_RESOURCES && node.allocatable.FitsIn(WIDTH)
  {
    var m', h := AddNode(m, node), NextHandle(m.nodes);
    InsertFacts(m.nodes, node);
    assert m'.Node(h) == node;
    forall p
      ensures !m'.RunsOn(p, h)
    {
      if m.HasPod(p) {
        assert PodAgrees(m, p);
      }
    }
    assert node.pods == [] || node.pods[0] in node.pods;
    if Inv(m') {
      assert NodeAgrees(m', h);
    }
    forall n | m'.HasNode(n) && n != h
      ensures NodeAgrees(m', n)
    {
      assert m.HasNode(n) && NodeAgrees(m, n);
      assert forall p :: m'.RunsOn(p, n) <==> m.RunsOn(p, n);
    }
    forall p | m'.HasPod(p)
      ensures PodAgrees(m', p)
    {
      assert m.HasPod(p) && PodAgrees(m, p);
    }
  }

  lemma RemoveNodeInv(m: Cluster, n: NodeId)
    requires Inv(m)
    ensures Inv(RemoveNode(m, n))
  {
    var m' := RemoveNode(m, n);
    RemoveFacts(m.nodes, n);
    forall k | m'.HasNode(k)
      ensures NodeAgrees(m', k)
    {
      assert m.HasNode(k) && NodeAgrees(m, k);
      assert forall p :: m'.RunsOn(p, k) <==> m.RunsOn(p, k);
    }
    forall p | m'.HasPod(p)
      ensures PodAgrees(m', p)
    {
      assert m.HasPod(p) && PodAgrees(m, p);
    }
  }

  lemma SubmitPodInv(m: Cluster, pod: Pod)
    requires Inv(m)
    ensures Inv(SubmitPod(m, pod))
  {
    var m', h := SubmitPod(m, pod), NextHandle(m.pods);
    InsertFacts(m.pods, pod.(phase := Pending, node := None));
    assert !m.HasPod(h);
    forall n | m'.HasNode(n)
      ensures NodeAgrees(m', n)
    {
      assert m.HasNode(n) && NodeAgrees(m, n);
      assert forall p :: m'.RunsOn(p, n) <==> m.RunsOn(p, n);
      TotalRequestsSame(m.pods.live, m'.pods.live, m.Node(n).pods);
    }
    forall p | m'.HasPod(p)
      ensures PodAgrees(m', p)
    {
      if p != h {
        assert m.HasPod(p) && PodAgrees(m, p);
      }
    }
    assert h !in m.pending;
  }

  /** The node still has room, in the machine's width, for the pod's request. */
  predicate SumFits(m: Cluster, p: PodId, n: NodeId)
    requires m.HasPod(p) && m.HasNode(n)
  {
    m.Node(n).used.Plus(m.Pod(p).requests).FitsIn(WIDTH)
  }

  /** A bind keeps the invariant exactly when the node's sum does not saturate. */
  lemma BindPodInv(m: Cluster, p: PodId, n: NodeId)
    requires Inv(m)
    ensures Inv(BindPod(m, p, n)) <==> (CanBind(m, p, n) ==> SumFits(m, p, n))
  {
    if CanBind(m, p, n) {
      var m' := BindPod(m, p, n);
      if SumFits(m, p, n) {
        BindNodesAgree(m, p, n);
        DequeueNoDuplicates(m.pending, p);
        forall q | m'.HasPod(q)
          ensures PodAgrees(m', q)
        {
          assert m.HasPod(q) && PodAgrees(m, q);
        }
      } else {
        BindSaturated(m, p, n);
      }
    }
  }

  lemma BindSaturated(m: Cluster, p: PodId, n: NodeId)
    requires Inv(m) && CanBind(m, p, n) && !SumFits(m, p, n)
    ensures !NodeAgrees(BindPod(m, p, n), n)
  {
    var m' := BindPod(m, p, n);
    assert NodeAgrees(m, n) && PodAgrees(m, p);
    TotalRequestsSame(m.pods.live, m'.pods.live, m.Node(n).pods);
    TotalRequestsAppend(m'.pods.live, m.Node(n).pods, p);
  }

  lemma BindNodesAgree(m: Cluster, p: PodId, n: NodeId)
    requires Inv(m) && CanBind(m, p, n) && SumFits(m, p, n)
    ensures forall k :: BindPod(m, p, n).HasNode(k) ==> NodeAgrees(BindPod(m, p, n), k)
  {
    var m' := BindPod(m, p, n);
    assert PodAgrees(m, p);
    forall k | m'.HasNode(k)
      ensures NodeAgrees(m', k)
    {
      assert m.HasNode(k) && NodeAgrees(m, k);
      var ids := m.Node(k).pods;
      assert p !in ids;
      TotalRequestsSame(m.pods.live, m'.pods.live, ids);
      if k == n {
        TotalRequestsAppend(m'.pods.live, ids, p);
        assert forall q :: m'.RunsOn(q, k) <==> m.RunsOn(q, k) || q == p;
      } else {
        assert forall q :: m'.RunsOn(q, k) <==> m.RunsOn(q, k);
      }
    }
  }

  /** When the pod leaves, its node's sum loses exactly its request: the
      subtraction does not saturate. */
  lemma UnaccountExact(m: Cluster, p: PodId)
    requires Inv(m) && CanEvict(m, p) && m.HasNode(m.Pod(p).node.value)
    ensures var n := m.Pod(p).node.value;
            var node := Unaccount(m.nodes, p, m.Pod(p)).live[n];
            && m.Node(n).used == node.used.Plus(m.Pod(p).requests)
            && node.used == TotalRequests(m.pods.live, node.pods)
            && NoDuplicates(node.pods)
            && (forall q :: q in node.pods <==> q in m.Node(n).pods && q != p)
  {
    var n := m.Pod(p).node.value;
    assert NodeAgrees(m, n);
    assert m.RunsOn(p, n);
    TotalRequestsWithout(m.pods.live, m.Node(n).pods, p);
    WithoutMembers(m.Node(n).pods, p);
    WithoutNoDuplicates(m.Node(n).pods, p);
  }

  /** What both ways of taking a running pod off its node leave behind. */
  lemma DepartureNodesAgree(m: Cluster, m': Cluster, p: PodId)
    requires Inv(m) && m.HasPod(p)
    requires m'.nodes == Unaccount(m.nodes, p, m.Pod(p))
    requires forall q :: q != p ==> (m'.HasPod(q) <==> m.HasPod(q))
    requires forall q :: q != p && m.HasPod(q) ==> m'.Pod(q) == m.Pod(q)
    requires m'.HasPod(p) ==> m'.Pod(p).node.None?
    ensures Consistent(m'.nodes) && m'.nodes.generations == m.nodes.generations
    ensures forall k :: m'.HasNode(k) ==> NodeAgrees(m', k)
  {
    assert PodAgrees(m, p);
    forall k | m'.HasNode(k)
      ensures NodeAgrees(m', k)
    {
      assert m.HasNode(k) && NodeAgrees(m, k);
      if m.Pod(p).node == Some(k) {
        UnaccountExact(m, p);
        TotalRequestsSame(m.pods.live, m'.pods.live, m'.Node(k).pods);
        assert forall q :: m'.RunsOn(q, k) <==> m.RunsOn(q, k) && q != p;
      } else {
        assert p !in m.Node(k).pods;
        TotalRequestsSame(m.pods.live, m'.pods.live, m.Node(k).pods);
        assert forall q :: m'.RunsOn(q, k) <==> m.RunsOn(q, k);
      }
    }
  }

  lemma RemovePodInv(m: Cluster, p: PodId)
    requires Inv(m)
    ensures Inv(RemovePod(m, p))
  {
    if m.HasPod(p) {
      var m' := RemovePod(m, p);
      RemoveFacts(m.pods, p);
      DequeueNoDuplicates(m.pending, p);
      assert PodAgrees(m, p);
      DepartureNodesAgree(m, m', p);
      forall q | m'.HasPod(q)
        ensures PodAgrees(m', q)
      {
        assert m.HasPod(q) && PodAgrees(m, q);
      }
      assert Consistent(m'.pods);
    }
  }

  lemma EvictPodInv(m: Cluster, p: PodId)
    requires Inv(m)
    ensures Inv(EvictPod(m, p))
  {
    if CanEvict(m, p) {
      var m' := EvictPod(m, p);
      DepartureNodesAgree(m, m', p);
      forall q | m'.HasPod(q)
        ensures PodAgrees(m', q)
      {
        assert m.HasPod(q) && PodAgrees(m, q);
      }
      assert p !in m.pending;
    }
  }

  /** How far a node's allocation exceeds its allocatable resources. */
  function Excess(node: Node): Resources {
    node.used.SaturatingSub(node.allocatable)
  }

  /** Replacing an accounted request by one that fits in what is free plus the
      old request is exact, and does not grow the excess. */
  lemma ResizeArithmetic(node: Node, rest: Resources, was: Resources, now: Resources)
    requires node.used == rest.Plus(was) && node.used.FitsIn(WIDTH) && node.allocatable.FitsIn(WIDTH)
    requires now.FitsIn(node.Available().SaturatingAdd(was))
    ensures node.used.SaturatingSub(was).SaturatingAdd(now) == rest.Plus(now)
    ensures rest.Plus(now).FitsIn(WIDTH)
    ensures rest.Plus(now).SaturatingSub(node.allocatable).FitsIn(Excess(node))
  {
  }

  /** A resize never grows any node's excess. */
  lemma ResizeNeverGrowsExcess(m: Cluster, p: PodId, requests: Resources)
    requires Inv(m)
    ensures forall n :: m.HasNode(n) ==>
              && ResizePod(m, p, requests).HasNode(n)
              && Excess(ResizePod(m, p, requests).Node(n)).FitsIn(Excess(m.Node(n)))
  {
    forall n | m.HasNode(n)
      ensures ResizePod(m, p, requests).HasNode(n)
      ensures Excess(ResizePod(m, p, requests).Node(n)).FitsIn(Excess(m.Node(n)))
    {
      ResizeNodeAgrees(m, p, requests, n);
    }
  }

  lemma ResizePodInv(m: Cluster, p: PodId, requests: Resources)
    requires Inv(m)
    ensures Inv(ResizePod(m, p, requests))
  {
    var m' := ResizePod(m, p, requests);
    forall k | m'.HasNode(k)
      ensures NodeAgrees(m', k)
    {
      ResizeNodeAgrees(m, p, requests, k);
    }
    forall q | m'.HasPod(q)
      ensures PodAgrees(m', q)
    {
      assert m.HasPod(q) && PodAgrees(m, q);
    }
    assert QueueAgrees(m');
    assert Consistent(m'.nodes) && Consistent(m'.pods);
  }

  lemma ResizeNodeAgrees(m: Cluster, p: PodId, requests: Resources, k: NodeId)
    requires Inv(m) && m.HasNode(k)
    ensures ResizePod(m, p, requests).HasNode(k)
    ensures NodeAgrees(ResizePod(m, p, requests), k)
    ensures Excess(ResizePod(m, p, requests).Node(k)).FitsIn(Excess(m.Node(k)))
  {
    var m' := ResizePod(m, p, requests);
    var ids := m.Node(k).pods;
    assert NodeAgrees(m, k);
    assert forall q :: m'.RunsOn(q, k) <==> m.RunsOn(q, k);
    if CanResize(m, p) && ResizeFits(m, p, requests) && m.Pod(p).node == Some(k) {
      assert m.RunsOn(p, k);
      TotalRequestsChange(m.pods.live, m'.pods.live, ids, p);
      var rest: Resources :|
        && TotalRequests(m.pods.live, ids) == rest.Plus(RequestOf(m.pods.live, p))
        && TotalRequests(m'.pods.live, ids) == rest.Plus(RequestOf(m'.pods.live, p));
      ResizeArithmetic(m.Node(k), rest, m.Pod(p).requests, requests);
    } else {
      TotalRequestsSame(m.pods.live, m'.pods.live, ids);
    }
  }

  /** Annotations that no accounting depends on. */
  lemma CordonInv(m: Cluster, n: NodeId)
    requires Inv(m)
    ensures Inv(Cordon(m, n))
  {
    var m' := Cordon(m, n);
    forall k | m'.HasNode(k)
      ensures NodeAgrees(m', k)
    {
      assert m.HasNode(k) && NodeAgrees(m, k);
      assert forall q :: m'.RunsOn(q, k) <==> m.RunsOn(q, k);
    }
    forall q | m'.HasPod(q)
      ensures PodAgrees(m', q)
    {
      assert m.HasPod(q) && PodAgrees(m, q);
    }
  }

  lemma SetDeletionCostInv(m: Cluster, p: PodId, cost: int)
    requires Inv(m)
    ensures Inv(SetDeletionCost(m, p, cost))
  {
    var m' := SetDeletionCost(m, p, cost);
    forall k | m'.HasNode(k)
      ensures NodeAgrees(m', k)
    {
      assert m.HasNode(k) && NodeAgrees(m, k);
      assert forall q :: m'.RunsOn(q, k) <==> m.RunsOn(q, k);
      TotalRequestsSame(m.pods.live, m'.pods.live, m.Node(k).pods);
    }
    forall q | m'.HasPod(q)
      ensures PodAgrees(m', q)
    {
      assert m.HasPod(q) && PodAgrees(m, q);
    }
  }

  // ----- Whole runs -----

  datatype Op =
    | AddNodeOp(node: Node)
    | RemoveNodeOp(n: NodeId)
    | SubmitPodOp(pod: Pod)
    | BindPodOp(p: PodId, n: NodeId)
    | EvictPodOp(p: PodId)
    | RemovePodOp(p: PodId)
    | ResizePodOp(p: PodId, requests: Resources)
    | CordonOp(n: NodeId)
    | SetDeletionCostOp(p: PodId, cost: int)

  /** What a caller can check before the operation: nodes are added empty, and
      a bound pod's request does not overflow the node's sum. */
  predicate Admissible(m: Cluster, op: Op) {
    match op
    case AddNodeOp(node) => node.pods == [] && node.used == NO_RESOURCES && node.allocatable.FitsIn(WIDTH)
    case BindPodOp(p, n) => CanBind(m, p, n) ==> SumFits(m, p, n)
    case _ => true
  }

  ghost function Step(m: Cluster, op: Op): Cluster
    requires Inv(m)
  {
    match op
    case AddNodeOp(node) => AddNode(m, node)
    case RemoveNodeOp(n) => RemoveNode(m, n)
    case SubmitPodOp(pod) => SubmitPod(m, pod)
    case BindPodOp(p, n) => BindPod(m, p, n)
    case EvictPodOp(p) => EvictPod(m, p)
    case RemovePodOp(p) => RemovePod(m, p)
    case ResizePodOp(p, requests) => ResizePod(m, p, requests)
    case CordonOp(n) => Cordon(m, n)
    case SetDeletionCostOp(p, cost) => SetDeletionCost(m, p, cost)
  }

  /** An operation keeps the invariant exactly when it is admissible. */
  lemma StepInv(m: Cluster, op: Op)
    requires Inv(m)
    ensures Inv(Step(m, op)) <==> Admissible(m, op)
  {
    match op
    case AddNodeOp(node) => AddNodeInv(m, node);
    case RemoveNodeOp(n) => RemoveNodeInv(m, n);
    case SubmitPodOp(pod) => SubmitPodInv(m, pod);
    case BindPodOp(p, n) => BindPodInv(m, p, n);
    case EvictPodOp(p) => EvictPodInv(m, p);
    case RemovePodOp(p) => RemovePodInv(m, p);
    case ResizePodOp(p, requests) => ResizePodInv(m, p, requests);
    case CordonOp(n) => CordonInv(m, n);
    case SetDeletionCostOp(p, cost) => SetDeletionCostInv(m, p, cost);
  }

  ghost predicate AdmissibleRun(m: Cluster, ops: seq<Op>)
    requires Inv(m)
    decreases |ops|
  {
    ops == [] ||
    (Admissible(m, ops[0]) && (StepInv(m, ops[0]); AdmissibleRun(Step(m, ops[0]), ops[1..])))
  }

  ghost function Run(m: Cluster, ops: seq<Op>): Cluster
    requires Inv(m) && AdmissibleRun(m, ops)
    decreases |ops|
  {
    if ops == [] then m else StepInv(m, ops[0]); Run(Step(m, ops[0]), ops[1..])
  }

  /** A stale handle of a node or pod never resolves again. */
  ghost predicate StaleStay(m: Cluster, m': Cluster) {
    && (forall n :: Issued(m.nodes, n) ==> Issued(m'.nodes, n))
    && (forall p :: Issued(m.pods, p) ==> Issued(m'.pods, p))
    && (forall n :: Issued(m.nodes, n) && !m.HasNode(n) ==> !m'.HasNode(n))
    && (forall p :: Issued(m.pods, p) && !m.HasPod(p) ==> !m'.HasPod(p))
  }

  lemma StepStale(m: Cluster, op: Op)
    requires Inv(m)
    ensures StaleStay(m, Step(m, op))
  {
    match op
    case AddNodeOp(node) => InsertFacts(m.nodes, node);
    case RemoveNodeOp(n) => RemoveFacts(m.nodes, n);
    case SubmitPodOp(pod) => InsertFacts(m.pods, pod.(phase := Pending, node := None));
    case RemovePodOp(p) => RemoveFacts(m.pods, p);
    case BindPodOp(p, n) =>
    case EvictPodOp(p) =>
    case ResizePodOp(p, requests) =>
    case CordonOp(n) =>
    case SetDeletionCostOp(p, cost) =>
  }

  /** Over every admissible run, whatever nodes it removes and slots it reuses,
      the accounting invariant holds at the end and stale handles stay stale. */
  lemma {:induction false} RunInv(m: Cluster, ops: seq<Op>)
    requires Inv(m) && AdmissibleRun(m, ops)
    ensures Inv(Run(m, ops))
    ensures StaleStay(m, Run(m, ops))
    decreases |ops|
  {
    if ops != [] {
      StepInv(m, ops[0]);
      StepStale(m, ops[0]);
      RunInv(Step(m, ops[0]), ops[1..]);
    }
  }
}
