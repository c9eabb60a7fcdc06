/** The ReplicaSet controller: converge to the desired number of pods. */
module ReplicaSets {
  import opened Types
  import opened Sequences
  import opened Arenas
  import opened ClusterModel
  import opened ClusterStates
  import opened Events

  // ----- Looking at the state -----

  predicate Owns(m: Cluster, r: ReplicaSetId, owner: OwnerId) {
    m.replicaSets.Has(r) && m.replicaSets.At(r).owner == owner
  }

  /** The first of the listed ReplicaSets that belongs to the owner. */
  function FindIn(m: Cluster, ids: seq<ReplicaSetId>, owner: OwnerId): (r: Option<ReplicaSetId>)
    ensures r.Some? ==> Owns(m, r.value, owner)
  {
    if ids == [] then None
    else
      var r := FindIn(m, ids[..|ids| - 1], owner);
      if r.None? && Owns(m, ids[|ids| - 1], owner) then Some(ids[|ids| - 1]) else r
  }

  function FindReplicaSet(m: Cluster, owner: OwnerId): Option<ReplicaSetId> {
    FindIn(m, Order(m.replicaSets), owner)
  }

  predicate IsOf(m: Cluster, p: PodId, owner: OwnerId, phase: Phase) {
    m.HasPod(p) && m.Pod(p).owner == owner && m.Pod(p).phase == phase
  }

  function PodsOf(m: Cluster, ids: seq<PodId>, owner: OwnerId, phase: Phase): seq<PodId> {
    if ids == [] then []
    else
      PodsOf(m, ids[..|ids| - 1], owner, phase) +
      (if IsOf(m, ids[|ids| - 1], owner, phase) then [ids[|ids| - 1]] else [])
  }

  function PendingOf(m: Cluster, owner: OwnerId): seq<PodId> {
    PodsOf(m, Order(m.pods), owner, Pending)
  }

  function RunningOf(m: Cluster, owner: OwnerId): seq<PodId> {
    PodsOf(m, Order(m.pods), owner, Running)
  }

  /** The pods that count as replicas. */
  function Replicas(m: Cluster, owner: OwnerId): set<PodId> {
    set p | p in m.pods.live && (IsOf(m, p, owner, Pending) || IsOf(m, p, owner, Running))
  }

  /** Running replicas on the same node, this pod included. */
  function Colocated(m: Cluster, pod: Pod, owner: OwnerId): nat {
    if pod.node.Some? && m.HasNode(pod.node.value) then |PodsOf(m, m.Node(pod.node.value).pods, owner, Running)| else 0
  }

  // ----- Deletion costs -----

  function CostsOf(m: Cluster, ids: seq<PodId>): seq<(PodId, int)> {
    if ids == [] then []
    else
      var p := ids[|ids| - 1];
      CostsOf(m, ids[..|ids| - 1]) +
      (if m.HasPod(p) then [(p, 0 - Colocated(m, m.Pod(p), m.Pod(p).owner) as int)] else [])
  }

  function ApplyCosts(m: Cluster, costs: seq<(PodId, int)>): Cluster {
    if costs == [] then m
    else
      var last := costs[|costs| - 1];
      SetDeletionCost(ApplyCosts(m, costs[..|costs| - 1]), last.0, last.1)
  }

  function UpdateCosts(m: Cluster, ids: seq<PodId>): Cluster {
    ApplyCosts(m, CostsOf(m, ids))
  }

  function UpdateIfPreferring(m: Cluster, strategy: DeletionCostStrategy, owner: OwnerId): Cluster {
    if strategy.PreferEmptyingNodes? then UpdateCosts(m, RunningOf(m, owner)) else m
  }

  // ----- Choosing victims -----

  function CostOf(m: Cluster, p: PodId): int {
    if m.HasPod(p) && m.Pod(p).deletionCost.Some? then m.Pod(p).deletionCost.value else 0
  }

  function ColocatedAt(m: Cluster, p: PodId, owner: OwnerId): nat {
    if m.HasPod(p) then Colocated(m, m.Pod(p), owner) else 0
  }

  /** Lower cost first, then more co-located replicas, then newer slots. */
  function DeletedBefore(m: Cluster, owner: OwnerId): (PodId, PodId) -> bool {
    (a: PodId, b: PodId) =>
      || CostOf(m, a) < CostOf(m, b)
      || (CostOf(m, a) == CostOf(m, b) &&
          (|| ColocatedAt(m, a, owner) > ColocatedAt(m, b, owner)
           || (ColocatedAt(m, a, owner) == ColocatedAt(m, b, owner) && a.index >= b.index)))
  }

  /** Pending pods in slot order, then running pods in deletion order. */
  function DeletionOrder(m: Cluster, m1: Cluster, owner: OwnerId): seq<PodId> {
    PendingOf(m, owner) + StableSort(RunningOf(m, owner), DeletedBefore(m1, owner))
  }

  function Take<T>(s: seq<T>, k: nat): seq<T> {
    if k <= |s| then s[..k] else s
  }

  function RemoveAll(m: Cluster, ids: seq<PodId>): Cluster {
    if ids == [] then m else RemovePod(RemoveAll(m, ids[..|ids| - 1]), ids[|ids| - 1])
  }

  // ----- Reconciling as a function -----

  function Replica(owner: OwnerId, template: PodTemplate): Pod {
    Pod(template.requests, Pending, None, template.constraints, template.deletionCost, owner,
        template.priority, template.labels, false, false, None)
  }

  ghost function SubmitMany(m: Cluster, pod: Pod, count: nat): (m': Cluster)
    requires Inv(m)
    ensures Inv(m')
  {
    if count == 0 then m
    else
      var m1 := SubmitMany(m, pod, count - 1);
      SubmitPodInv(m1, pod);
      SubmitPod(m1, pod)
  }

  /** The state in which victims are selected. */
  function AtSelection(m: Cluster, rs: ReplicaSet): Cluster {
    UpdateIfPreferring(m, rs.strategy, rs.owner)
  }

  function Victims(m: Cluster, rs: ReplicaSet): seq<PodId> {
    var actual := |Replicas(m, rs.owner)|;
    if actual <= rs.desiredReplicas then []
    else Take(DeletionOrder(m, AtSelection(m, rs), rs.owner), actual - rs.desiredReplicas)
  }

  ghost function Reconcile(m: Cluster, owner: OwnerId): Cluster
    requires Inv(m)
  {
    var r := FindReplicaSet(m, owner);
    if r.None? then m
    else
      var rs := m.replicaSets.At(r.value);
      var actual := |Replicas(m, owner)|;
      if actual < rs.desiredReplicas then SubmitMany(m, Replica(owner, rs.template), rs.desiredReplicas - actual)
      else if actual > rs.desiredReplicas then
        UpdateIfPreferring(RemoveAll(AtSelection(m, rs), Victims(m, rs)), rs.strategy, owner)
      else UpdateIfPreferring(m, rs.strategy, owner)
  }

  function ReconcileEvents(m: Cluster, owner: OwnerId, time: nat): seq<ScheduledEvent> {
    var r := FindReplicaSet(m, owner);
    if r.Some? && |Replicas(m, owner)| < m.replicaSets.At(r.value).desiredReplicas
    then [At(time + 1, ProvisioningLoop)] else []
  }

  // ----- Costs change nothing else -----

  function Uncosted(pod: Pod): Pod { pod.(deletionCost := None) }

  ghost predicate SameButCosts(m: Cluster, m': Cluster) {
    && m'.pods.live.Keys == m.pods.live.Keys
    && m' == m.(pods := m.pods.(live := m'.pods.live))
    && (forall p :: m.HasPod(p) ==> m'.HasPod(p) && Uncosted(m'.Pod(p)) == Uncosted(m.Pod(p)))
  }

  lemma {:induction false} ApplyCostsFacts(m: Cluster, costs: seq<(PodId, int)>)
    ensures SameButCosts(m, ApplyCosts(m, costs))
    ensures Inv(m) ==> Inv(ApplyCosts(m, costs))
    ensures forall p :: m.HasPod(p) && ApplyCosts(m, costs).Pod(p) != m.Pod(p) ==> exists c :: c in costs && c.0 == p
  {
    hide Inv;
    if costs != [] {
      var front, last := costs[..|costs| - 1], costs[|costs| - 1];
      ApplyCostsFacts(m, front);
      var m1 := ApplyCosts(m, front);
      if Inv(m) {
        SetDeletionCostInv(m1, last.0, last.1);
      }
      assert costs == front + [last];
      assert last in costs;
    }
  }

  lemma {:induction false} CostsOfMembers(m: Cluster, ids: seq<PodId>)
    ensures forall c :: c in CostsOf(m, ids) ==> c.0 in ids
  {
    hide Colocated;
    if ids != [] {
      CostsOfMembers(m, ids[..|ids| - 1]);
    }
  }

  /** Updating costs changes the costs of the owner's running pods, and nothing else. */
  lemma UpdateFacts(m: Cluster, strategy: DeletionCostStrategy, owner: OwnerId)
    requires Inv(m)
    ensures var m' := UpdateIfPreferring(m, strategy, owner);
            && SameButCosts(m, m') && Inv(m')
            && (forall p :: m.HasPod(p) && m'.Pod(p) != m.Pod(p) ==> IsOf(m, p, owner, Running))
  {
    if strategy.PreferEmptyingNodes? {
      var ids := RunningOf(m, owner);
      ApplyCostsFacts(m, CostsOf(m, ids));
      CostsOfMembers(m, ids);
      PodsOfFacts(m, Order(m.pods), owner, Running);
      hide Inv, IsOf, SameButCosts, CostsOf, ApplyCosts;
    }
  }

  lemma {:induction false} PodsOfFacts(m: Cluster, ids: seq<PodId>, owner: OwnerId, phase: Phase)
    ensures forall p :: p in PodsOf(m, ids, owner, phase) <==> p in ids && IsOf(m, p, owner, phase)
    ensures NoDuplicates(ids) ==> NoDuplicates(PodsOf(m, ids, owner, phase))
  {
    hide IsOf;
    if ids != [] {
      var front, last := ids[..|ids| - 1], ids[|ids| - 1];
      PodsOfFacts(m, front, owner, phase);
      assert ids == front + [last];
      assert NoDuplicates(ids) ==> last !in front;
    }
  }

  // ----- The number of replicas -----

  /** The replicas are the pending and the running pods of the owner, each listed once. */
  lemma ReplicasListed(m: Cluster, owner: OwnerId)
    requires Consistent(m.pods)
    ensures var all := PendingOf(m, owner) + RunningOf(m, owner);
            NoDuplicates(all) && Elements(all) == Replicas(m, owner) && |all| == |Replicas(m, owner)|
  {
    OrderFacts(m.pods);
    PodsOfFacts(m, Order(m.pods), owner, Pending);
    PodsOfFacts(m, Order(m.pods), owner, Running);
    var pending, running := PendingOf(m, owner), RunningOf(m, owner);
    var all := pending + running;
    NoDuplicatesConcat(pending, running);
    assert Elements(all) == Replicas(m, owner);
    NoDuplicatesCardinality(all);
  }

  lemma SubmitGrows(m: Cluster, pod: Pod, owner: OwnerId)
    requires Inv(m)
    ensures var m' := SubmitPod(m, pod);
            Replicas(m', owner) == Replicas(m, owner) + (if pod.owner == owner then {NextHandle(m.pods)} else {})
    ensures NextHandle(m.pods) !in Replicas(m, owner) && !m.HasPod(NextHandle(m.pods))
  {
    InsertFacts(m.pods, pod.(phase := Pending, node := None));
    assert !m.HasPod(NextHandle(m.pods));
  }

  /** Submitting pods adds as many replicas and touches no other pod. */
  lemma {:induction false} SubmitManyFacts(m: Cluster, pod: Pod, count: nat)
    requires Inv(m)
    ensures var m' := SubmitMany(m, pod, count);
            && |Replicas(m', pod.owner)| == |Replicas(m, pod.owner)| + count
            && m'.replicaSets == m.replicaSets
            && (forall p :: m.HasPod(p) ==> m'.HasPod(p) && m'.Pod(p) == m.Pod(p))
            && (forall p :: m'.HasPod(p) && !m.HasPod(p) ==> m'.Pod(p) == Unplaced(pod))
  {
    hide Inv, Replicas;
    if count > 0 {
      SubmitManyFacts(m, pod, count - 1);
      var m1 := SubmitMany(m, pod, count - 1);
      assert Consistent(m1.pods) by {
        InvPods(m1);
      }
      SubmitGrows(m1, pod, pod.owner);
    }
  }

  lemma InvPods(m: Cluster)
    requires Inv(m)
    ensures Consistent(m.pods)
  {
  }

  lemma RemoveOne(m: Cluster, p: PodId)
    requires Inv(m)
    ensures var m' := RemovePod(m, p);
            && Inv(m') && m'.replicaSets == m.replicaSets
            && (forall q :: m'.HasPod(q) <==> m.HasPod(q) && q != p)
            && (forall q :: m'.HasPod(q) ==> m'.Pod(q) == m.Pod(q))
  {
    RemovePodInv(m, p);
  }

  lemma {:induction false} RemoveAllFacts(m: Cluster, ids: seq<PodId>)
    requires Inv(m)
    ensures var m' := RemoveAll(m, ids);
            && Inv(m') && m'.replicaSets == m.replicaSets
            && (forall q :: m'.HasPod(q) <==> m.HasPod(q) && q !in ids)
            && (forall q :: m'.HasPod(q) ==> m'.Pod(q) == m.Pod(q))
  {
    hide Inv, RemovePod;
    if ids != [] {
      var front, last := ids[..|ids| - 1], ids[|ids| - 1];
      assert ids == front + [last];
      RemoveAllFacts(m, front);
      RemoveOne(RemoveAll(m, front), last);
    }
  }

  /** The deletion order lists every replica once. */
  lemma DeletionOrderFacts(m: Cluster, m1: Cluster, owner: OwnerId)
    requires Consistent(m.pods)
    ensures var order := DeletionOrder(m, m1, owner);
            NoDuplicates(order) && Elements(order) == Replicas(m, owner) && |order| == |Replicas(m, owner)|
  {
    ReplicasListed(m, owner);
    var pending, running := PendingOf(m, owner), RunningOf(m, owner);
    var sorted := StableSort(running, DeletedBefore(m1, owner));
    StableSortPermutes(running, DeletedBefore(m1, owner));
    hide Replicas, PendingOf, RunningOf, StableSort, DeletedBefore;
    assert multiset(pending + sorted) == multiset(pending + running);
    PermutationFacts(pending + sorted, pending + running);
    assert Elements(pending + sorted) == Elements(pending + running);
  }

  /** As many distinct replicas are chosen as there are too many. */
  lemma VictimsAreReplicas(m: Cluster, rs: ReplicaSet)
    requires Inv(m)
    ensures var victims := Victims(m, rs);
            && NoDuplicates(victims) && (forall v :: v in victims ==> v in Replicas(m, rs.owner))
            && |victims| == MonusNat(|Replicas(m, rs.owner)|, rs.desiredReplicas)
  {
    DeletionOrderFacts(m, AtSelection(m, rs), rs.owner);
    hide Inv, Replicas, DeletionOrder;
    var order := DeletionOrder(m, AtSelection(m, rs), rs.owner);
    assert forall v :: v in order ==> v in Elements(order);
  }

  lemma SameReplicas(m: Cluster, m': Cluster, owner: OwnerId)
    requires SameButCosts(m, m')
    ensures Replicas(m', owner) == Replicas(m, owner)
  {
    assert forall p :: p in m'.pods.live <==> p in m.pods.live.Keys;
  }

  lemma FewerReplicas(m: Cluster, m': Cluster, owner: OwnerId, victims: seq<PodId>)
    requires NoDuplicates(victims) && forall v :: v in victims ==> v in Replicas(m, owner)
    requires forall q :: m'.HasPod(q) <==> m.HasPod(q) && q !in victims
    requires forall q :: m'.HasPod(q) ==> Uncosted(m'.Pod(q)) == Uncosted(m.Pod(q))
    ensures |Replicas(m', owner)| == |Replicas(m, owner)| - |victims|
  {
    NoDuplicatesCardinality(victims);
    assert Elements(victims) <= Replicas(m, owner);
    assert Replicas(m', owner) == Replicas(m, owner) - Elements(victims) by {
      assert forall q :: q in m'.pods.live <==> m'.HasPod(q);
    }
  }

  // ----- What a reconcile guarantees -----

  /** Pods of other owners, and pods that are no replicas, are as they were. */
  ghost predicate OnlyReplicasChange(m: Cluster, m': Cluster, owner: OwnerId) {
    && (forall p :: m.HasPod(p) && p !in Replicas(m, owner) ==> m'.HasPod(p) && m'.Pod(p) == m.Pod(p))
    && (forall p :: m.HasPod(p) && m'.HasPod(p) ==> Uncosted(m'.Pod(p)) == Uncosted(m.Pod(p)))
    && (forall p :: m'.HasPod(p) && !m.HasPod(p) ==> IsOf(m', p, owner, Pending))
  }

  ghost predicate Converged(m: Cluster, m': Cluster, rs: ReplicaSet) {
    && Inv(m') && m'.replicaSets == m.replicaSets
    && |Replicas(m', rs.owner)| == rs.desiredReplicas
    && OnlyReplicasChange(m, m', rs.owner)
    && (forall p :: m.HasPod(p) && !m'.HasPod(p) <==> p in Victims(m, rs))
  }

  lemma UpdateConverged(m: Cluster, rs: ReplicaSet)
    requires Inv(m) && |Replicas(m, rs.owner)| == rs.desiredReplicas
    ensures Converged(m, UpdateIfPreferring(m, rs.strategy, rs.owner), rs)
  {
    UpdateFacts(m, rs.strategy, rs.owner);
    hide Inv, UpdateIfPreferring;
    SameReplicas(m, UpdateIfPreferring(m, rs.strategy, rs.owner), rs.owner);
  }

  lemma ScaleUpConverged(m: Cluster, rs: ReplicaSet)
    requires Inv(m) && |Replicas(m, rs.owner)| < rs.desiredReplicas
    ensures Converged(m, SubmitMany(m, Replica(rs.owner, rs.template), rs.desiredReplicas - |Replicas(m, rs.owner)|),
                      rs)
  {
    hide Inv, Replicas;
    SubmitManyFacts(m, Replica(rs.owner, rs.template), rs.desiredReplicas - |Replicas(m, rs.owner)|);
  }

  /** Removal framed by cost updates: the victims go, and only costs of the
      owner's running pods change. */
  ghost predicate Trimmed(m: Cluster, m': Cluster, owner: OwnerId, victims: seq<PodId>) {
    && Inv(m') && m'.replicaSets == m.replicaSets
    && (forall q :: m'.HasPod(q) <==> m.HasPod(q) && q !in victims)
    && (forall q :: m'.HasPod(q) ==> Uncosted(m'.Pod(q)) == Uncosted(m.Pod(q)))
    && (forall q :: m'.HasPod(q) && m'.Pod(q) != m.Pod(q) ==> IsOf(m, q, owner, Running))
  }

  lemma UpdateTrims(m: Cluster, strategy: DeletionCostStrategy, owner: OwnerId)
    requires Inv(m)
    ensures Trimmed(m, UpdateIfPreferring(m, strategy, owner), owner, [])
  {
    UpdateFacts(m, strategy, owner);
    hide Inv, UpdateIfPreferring;
    SameKeys(m, UpdateIfPreferring(m, strategy, owner));
  }

  lemma SameKeys(m: Cluster, m': Cluster)
    requires m'.pods.live.Keys == m.pods.live.Keys
    ensures forall q :: m'.HasPod(q) <==> m.HasPod(q)
  {
    assert forall q :: m.HasPod(q) <==> q in m.pods.live.Keys;
  }

  lemma TrimsCompose(a: Cluster, b: Cluster, c: Cluster, owner: OwnerId, v: seq<PodId>, w: seq<PodId>)
    requires Trimmed(a, b, owner, v) && Trimmed(b, c, owner, w)
    ensures Trimmed(a, c, owner, v + w)
  {
    hide Inv;
  }

  lemma ScaleDownTrims(m: Cluster, rs: ReplicaSet)
    requires Inv(m)
    ensures Trimmed(m, UpdateIfPreferring(RemoveAll(AtSelection(m, rs), Victims(m, rs)), rs.strategy, rs.owner),
                    rs.owner, Victims(m, rs))
  {
    var m1, victims := AtSelection(m, rs), Victims(m, rs);
    UpdateTrims(m, rs.strategy, rs.owner);
    RemoveAllFacts(m1, victims);
    var m2 := RemoveAll(m1, victims);
    assert Trimmed(m1, m2, rs.owner, victims);
    UpdateTrims(m2, rs.strategy, rs.owner);
    hide Trimmed, UpdateIfPreferring, RemoveAll, Victims;
    TrimsCompose(m, m1, m2, rs.owner, [], victims);
    TrimsCompose(m, m2, UpdateIfPreferring(m2, rs.strategy, rs.owner), rs.owner, [] + victims, []);
    assert [] + victims + [] == victims;
  }

  lemma ScaleDownConverged(m: Cluster, rs: ReplicaSet)
    requires Inv(m) && |Replicas(m, rs.owner)| > rs.desiredReplicas
    ensures Converged(m, UpdateIfPreferring(RemoveAll(AtSelection(m, rs), Victims(m, rs)), rs.strategy, rs.owner), rs)
  {
    hide *;
    VictimsAreReplicas(m, rs);
    ScaleDownTrims(m, rs);
    TrimmedConverges(m, UpdateIfPreferring(RemoveAll(AtSelection(m, rs), Victims(m, rs)), rs.strategy, rs.owner), rs);
  }

  lemma TrimmedConverges(m: Cluster, m': Cluster, rs: ReplicaSet)
    requires Trimmed(m, m', rs.owner, Victims(m, rs)) && Inv(m) && |Replicas(m, rs.owner)| > rs.desiredReplicas
    ensures Converged(m, m', rs)
  {
    hide Converged, Inv, Victims, Replicas, Trimmed, OnlyReplicasChange;
    VictimsAreReplicas(m, rs);
    TrimmedSize(m, m', rs.owner, Victims(m, rs));
    TrimmedKeepsOthers(m, m', rs.owner, Victims(m, rs));
    ConvergedIs(m, m', rs);
  }

  lemma TrimmedSize(m: Cluster, m': Cluster, owner: OwnerId, victims: seq<PodId>)
    requires Trimmed(m, m', owner, victims) && NoDuplicates(victims)
    requires forall v :: v in victims ==> v in Replicas(m, owner)
    ensures |Replicas(m', owner)| == |Replicas(m, owner)| - |victims|
  {
    hide Inv, Replicas;
    FewerReplicas(m, m', owner, victims);
  }

  lemma TrimmedKeepsOthers(m: Cluster, m': Cluster, owner: OwnerId, victims: seq<PodId>)
    requires Trimmed(m, m', owner, victims) && forall v :: v in victims ==> v in Replicas(m, owner)
    ensures OnlyReplicasChange(m, m', owner)
    ensures forall p :: m.HasPod(p) && !m'.HasPod(p) <==> p in victims
  {
    hide Inv, Replicas;
    forall p
      ensures p in Replicas(m, owner) ==> m.HasPod(p)
      ensures IsOf(m, p, owner, Running) ==> p in Replicas(m, owner)
    {
      RunningIsReplica(m, owner, p);
    }
  }

  lemma ConvergedIs(m: Cluster, m': Cluster, rs: ReplicaSet)
    requires Trimmed(m, m', rs.owner, Victims(m, rs)) && OnlyReplicasChange(m, m', rs.owner)
    requires |Replicas(m', rs.owner)| == rs.desiredReplicas
    requires forall p :: m.HasPod(p) && !m'.HasPod(p) <==> p in Victims(m, rs)
    ensures Converged(m, m', rs)
  {
    hide Inv, Victims, Replicas, OnlyReplicasChange;
  }

  lemma RunningIsReplica(m: Cluster, owner: OwnerId, p: PodId)
    ensures IsOf(m, p, owner, Running) ==> p in Replicas(m, owner)
    ensures p in Replicas(m, owner) ==> m.HasPod(p)
  {
  }

  /** Reconciling ends with exactly the desired number of replicas, deletes
      only the victims, and leaves every other pod alone. */
  lemma ReconcileConverges(m: Cluster, owner: OwnerId)
    requires Inv(m) && FindReplicaSet(m, owner).Some?
    ensures Converged(m, Reconcile(m, owner), m.replicaSets.At(FindReplicaSet(m, owner).value))
  {
    hide Inv, Converged, Replicas;
    var rs := m.replicaSets.At(FindReplicaSet(m, owner).value);
    var actual := |Replicas(m, owner)|;
    if actual < rs.desiredReplicas {
      ScaleUpConverged(m, rs);
    } else if actual > rs.desiredReplicas {
      ScaleDownConverged(m, rs);
    } else {
      UpdateConverged(m, rs);
    }
  }

  /** Repeating a reconcile adds and removes no pod and schedules nothing. */
  lemma ReconcileIsIdempotent(m: Cluster, owner: OwnerId, time: nat)
    requires Inv(m)
    ensures Inv(Reconcile(m, owner))
    ensures SameButCosts(Reconcile(m, owner), Reconcile(Reconcile(m, owner), owner))
    ensures ReconcileEvents(Reconcile(m, owner), owner, time) == [] || FindReplicaSet(m, owner).None?
  {
    hide Inv, Replicas, OnlyReplicasChange;
    if FindReplicaSet(m, owner).Some? {
      ReconcileConverges(m, owner);
      var m' := Reconcile(m, owner);
      SameReplicaSets(m, m', Order(m.replicaSets), owner);
      UpdateFacts(m', m.replicaSets.At(FindReplicaSet(m, owner).value).strategy, owner);
    }
  }

  lemma {:induction false} SameReplicaSets(m: Cluster, m': Cluster, ids: seq<ReplicaSetId>, owner: OwnerId)
    requires m'.replicaSets == m.replicaSets
    ensures FindIn(m', ids, owner) == FindIn(m, ids, owner)
  {
    if ids != [] {
      SameReplicaSets(m, m', ids[..|ids| - 1], owner);
    }
  }

  // ----- Deletion order -----

  lemma OrderIsStrict(m: Cluster, m1: Cluster, owner: OwnerId, p: PodId, q: PodId)
    requires Consistent(m.pods) && m.HasPod(p) && m.HasPod(q) && p != q
    requires DeletedBefore(m1, owner)(p, q)
    ensures !DeletedBefore(m1, owner)(q, p)
  {
    hide CostOf, ColocatedAt;
    assert p.index != q.index;
  }

  lemma OrderIsTotal(m1: Cluster, owner: OwnerId)
    ensures TotalPreorder(DeletedBefore(m1, owner))
  {
    hide CostOf, ColocatedAt;
  }

  /** A running pod is deleted only when every pending replica is, and it comes
      strictly before every surviving running replica in the order of cost,
      co-location and age at selection. */
  lemma VictimsComeFirst(m: Cluster, rs: ReplicaSet, p: PodId, q: PodId)
    requires Inv(m) && p in Victims(m, rs) && IsOf(m, p, rs.owner, Running)
    requires q in Replicas(m, rs.owner) && q !in Victims(m, rs)
    ensures IsOf(m, q, rs.owner, Running)
    ensures DeletedBefore(AtSelection(m, rs), rs.owner)(p, q) && !DeletedBefore(AtSelection(m, rs), rs.owner)(q, p)
  {
    var m1 := AtSelection(m, rs);
    var pending, running := PendingOf(m, rs.owner), RunningOf(m, rs.owner);
    var le := DeletedBefore(m1, rs.owner);
    var sorted := StableSort(running, le);
    DeletionOrderFacts(m, m1, rs.owner);
    PodsOfFacts(m, Order(m.pods), rs.owner, Pending);
    OrderIsTotal(m1, rs.owner);
    StableSortSorts(running, le);
    PermutationFacts(sorted, running);
    PodsOfFacts(m, Order(m.pods), rs.owner, Running);
    var order := DeletionOrder(m, m1, rs.owner);
    hide StableSort, DeletedBefore, Order, AtSelection, PodsOf;
    assert q in Elements(order);
    assert p != q;
    FirstTakenSorted(pending, sorted, |Victims(m, rs)|, p, q, le);
    OrderIsStrict(m, m1, rs.owner, p, q);
  }

  /** Updating costs writes minus the number of co-located replicas. */
  lemma {:induction false} UpdatedCosts(m: Cluster, ids: seq<PodId>, p: PodId)
    requires p in ids && m.HasPod(p)
    ensures CostOf(UpdateCosts(m, ids), p) == 0 - ColocatedAt(m, p, m.Pod(p).owner)
  {
    hide Colocated;
    var front, last := ids[..|ids| - 1], ids[|ids| - 1];
    var costs := CostsOf(m, front);
    assert ids == front + [last];
    ApplyCostsFacts(m, costs);
    SameKeys(m, ApplyCosts(m, costs));
    if m.HasPod(last) {
      var c := (last, 0 - Colocated(m, m.Pod(last), m.Pod(last).owner) as int);
      assert CostsOf(m, ids) == costs + [c];
      assert (costs + [c])[..|costs|] == costs;
    } else {
      assert CostsOf(m, ids) == costs;
    }
    if p in front {
      UpdatedCosts(m, front, p);
    }
  }

  /** A ReplicaSet that prefers emptying nodes deletes from its fullest nodes:
      no surviving replica has more co-located replicas than a deleted one. */
  lemma FullestNodesFirst(m: Cluster, rs: ReplicaSet, p: PodId, q: PodId)
    requires Inv(m) && rs.strategy.PreferEmptyingNodes? && p in Victims(m, rs) && IsOf(m, p, rs.owner, Running)
    requires q in Replicas(m, rs.owner) && q !in Victims(m, rs)
    ensures ColocatedAt(m, p, rs.owner) >= ColocatedAt(m, q, rs.owner)
  {
    hide Inv, ColocatedAt, CostOf, Victims, UpdateCosts;
    VictimsComeFirst(m, rs, p, q);
    assert AtSelection(m, rs) == UpdateCosts(m, RunningOf(m, rs.owner));
    InvPods(m);
    OrderFacts(m.pods);
    PodsOfFacts(m, Order(m.pods), rs.owner, Running);
    hide Order, PodsOf, Consistent;
    UpdatedCosts(m, RunningOf(m, rs.owner), p);
    UpdatedCosts(m, RunningOf(m, rs.owner), q);
  }

  lemma FirstTakenSorted(
    pending: seq<PodId>, sorted: seq<PodId>, k: nat, p: PodId, q: PodId, le: (PodId, PodId) -> bool)
    requires k <= |pending + sorted| && p in (pending + sorted)[..k] && p !in pending
    requires q in pending + sorted && q !in (pending + sorted)[..k] && SortedBy(sorted, le)
    ensures q in sorted && le(p, q)
  {
    var all := pending + sorted;
    var i :| 0 <= i < k && all[i] == p;
    var j :| 0 <= j < |all| && all[j] == q;
    assert forall x :: 0 <= x < k ==> all[x] in all[..k];
    assert forall x :: 0 <= x < |pending| ==> all[x] in pending;
    assert sorted[i - |pending|] == p && sorted[j - |pending|] == q;
  }

  // ----- Which nodes can be left partly emptied -----

  ghost predicate Deleted(m: Cluster, m': Cluster, owner: OwnerId, p: PodId) {
    IsOf(m, p, owner, Running) && !m'.HasPod(p)
  }

  ghost predicate Survives(m: Cluster, m': Cluster, owner: OwnerId, p: PodId) {
    IsOf(m, p, owner, Running) && m'.HasPod(p)
  }

  /** Some but not all of the owner's running pods on the node are deleted. */
  ghost predicate PartlyEmptied(m: Cluster, m': Cluster, owner: OwnerId, n: NodeId) {
    && (exists p :: Deleted(m, m', owner, p) && m.RunsOn(p, n))
    && (exists q :: Survives(m, m', owner, q) && m.RunsOn(q, n))
  }

  /** The owner's ReplicaSet is told to keep so many replicas. */
  function Scaled(m: Cluster, owner: OwnerId, desired: nat): Cluster {
    var r := FindReplicaSet(m, owner);
    if r.None? then m
    else m.(replicaSets := Update(m.replicaSets, r.value, m.replicaSets.At(r.value).(desiredReplicas := desired)))
  }

  lemma {:induction false} ScaledFinds(m: Cluster, owner: OwnerId, desired: nat, ids: seq<ReplicaSetId>)
    ensures FindIn(Scaled(m, owner, desired), ids, owner) == FindIn(m, ids, owner)
  {
    hide Order;
    if ids != [] {
      ScaledFinds(m, owner, desired, ids[..|ids| - 1]);
    }
  }

  /** Scaling changes the desired count and nothing else. */
  lemma ScaledFacts(m: Cluster, owner: OwnerId, desired: nat)
    requires Inv(m) && FindReplicaSet(m, owner).Some?
    ensures var m', r := Scaled(m, owner, desired), FindReplicaSet(m, owner);
            && Inv(m') && FindReplicaSet(m', owner) == r && m'.pods == m.pods && m'.nodes == m.nodes
            && m'.replicaSets.Has(r.value)
            && m'.replicaSets.At(r.value) == m.replicaSets.At(r.value).(desiredReplicas := desired)
  {
    var m' := Scaled(m, owner, desired);
    ScaledFinds(m, owner, desired, Order(m.replicaSets));
    assert m'.replicaSets.live.Keys == m.replicaSets.live.Keys;
    hide FindIn, OrderUpTo, TotalRequests;
    forall n | m'.HasNode(n)
      ensures NodeAgrees(m', n)
    {
      assert m.HasNode(n) && NodeAgrees(m, n);
      assert forall p :: m'.RunsOn(p, n) <==> m.RunsOn(p, n);
    }
    forall p | m'.HasPod(p)
      ensures PodAgrees(m', p)
    {
      assert m.HasPod(p) && PodAgrees(m, p);
    }
    assert forall p :: m'.HasPod(p) <==> m.HasPod(p);
  }

  /** The same pods on the same nodes, whatever they cost. */
  ghost predicate SamePlaces(m: Cluster, m': Cluster) {
    && m'.nodes == m.nodes && (forall p :: m'.HasPod(p) <==> m.HasPod(p))
    && (forall p :: m.HasPod(p) ==> Uncosted(m'.Pod(p)) == Uncosted(m.Pod(p)))
  }

  lemma {:induction false} SamePodsOf(m: Cluster, m': Cluster, ids: seq<PodId>, owner: OwnerId, phase: Phase)
    requires SamePlaces(m, m')
    ensures PodsOf(m', ids, owner, phase) == PodsOf(m, ids, owner, phase)
  {
    if ids != [] {
      SamePodsOf(m, m', ids[..|ids| - 1], owner, phase);
      assert m.HasPod(ids[|ids| - 1]) ==> Uncosted(m'.Pod(ids[|ids| - 1])) == Uncosted(m.Pod(ids[|ids| - 1]));
    }
  }

  lemma SameColocated(m: Cluster, m': Cluster, p: PodId, owner: OwnerId)
    requires SamePlaces(m, m')
    ensures ColocatedAt(m', p, owner) == ColocatedAt(m, p, owner)
  {
    if m.HasPod(p) {
      assert Uncosted(m'.Pod(p)) == Uncosted(m.Pod(p));
      var node := m.Pod(p).node;
      if node.Some? && m.HasNode(node.value) {
        SamePodsOf(m, m', m.Node(node.value).pods, owner, Running);
      }
    }
  }

  /** The pod is deleted before the other, should only one of them be. */
  predicate GoesBefore(m: Cluster, owner: OwnerId, p: PodId, q: PodId) {
    p != q && DeletedBefore(m, owner)(p, q)
  }

  lemma ScaledOrder(m: Cluster, owner: OwnerId, desired: nat, p: PodId, q: PodId)
    ensures GoesBefore(Scaled(m, owner, desired), owner, p, q) <==> GoesBefore(m, owner, p, q)
  {
    var m' := Scaled(m, owner, desired);
    assert SamePlaces(m, m') && CostOf(m', p) == CostOf(m, p) && CostOf(m', q) == CostOf(m, q);
    hide Scaled, CostOf, ColocatedAt;
    SameColocated(m, m', p, owner);
    SameColocated(m, m', q, owner);
  }

  /** The replicas that go no later than the running pod. */
  function UpTo(m: Cluster, owner: OwnerId, p: PodId): set<PodId> {
    set x | x in Replicas(m, owner) && (IsOf(m, x, owner, Pending) || x == p || GoesBefore(m, owner, x, p))
  }

  ghost predicate OwnsAlone(m: Cluster, owner: OwnerId) {
    && Inv(m) && FindReplicaSet(m, owner).Some?
    && m.replicaSets.At(FindReplicaSet(m, owner).value).strategy.NoStrategy?
  }

  /** The ReplicaSet is scaled and reconciled. */
  ghost function ScaleTo(m: Cluster, owner: OwnerId, desired: nat): Cluster
    requires OwnsAlone(m, owner)
  {
    ScaledFacts(m, owner, desired);
    Reconcile(Scaled(m, owner, desired), owner)
  }

  /** What goes when the ReplicaSet is scaled. */
  function VictimsAt(m: Cluster, owner: OwnerId, desired: nat): seq<PodId>
    requires FindReplicaSet(m, owner).Some?
  {
    var rs := m.replicaSets.At(FindReplicaSet(m, owner).value).(desiredReplicas := desired);
    Victims(Scaled(m, owner, desired), rs)
  }

  lemma FoundOwner(m: Cluster, owner: OwnerId)
    requires FindReplicaSet(m, owner).Some?
    ensures m.replicaSets.At(FindReplicaSet(m, owner).value).owner == owner
  {
  }

  lemma ScaledReplicas(m: Cluster, owner: OwnerId, desired: nat)
    ensures Replicas(Scaled(m, owner, desired), owner) == Replicas(m, owner)
  {
    hide FindReplicaSet;
  }

  /** The victims are as many replicas as are too many; they are deleted, other
      pods are not; and a running victim goes before every replica that stays. */
  lemma VictimsAtFacts(m: Cluster, owner: OwnerId, desired: nat)
    requires OwnsAlone(m, owner)
    ensures var victims, m' := VictimsAt(m, owner, desired), ScaleTo(m, owner, desired);
            && NoDuplicates(victims) && (forall v :: v in victims ==> v in Replicas(m, owner))
            && |victims| == MonusNat(|Replicas(m, owner)|, desired)
            && (forall p :: IsOf(m, p, owner, Running) ==> (!m'.HasPod(p) <==> p in victims))
            && (forall p, q ::
                  p in victims && IsOf(m, p, owner, Running) && q in Replicas(m, owner) && q !in victims ==>
                    IsOf(m, q, owner, Running) && GoesBefore(m, owner, p, q))
  {
    hide Inv, Replicas, Reconcile, Victims, FindReplicaSet, GoesBefore, Scaled, OnlyReplicasChange;
    var m1 := Scaled(m, owner, desired);
    ScaledFacts(m, owner, desired);
    FoundOwner(m, owner);
    ScaledReplicas(m, owner, desired);
    var rs := m1.replicaSets.At(FindReplicaSet(m, owner).value);
    VictimsAreReplicas(m1, rs);
    ReconcileConverges(m1, owner);
    assert forall p :: m1.HasPod(p) <==> m.HasPod(p);
    forall p, q | p in Victims(m1, rs) && IsOf(m, p, owner, Running) && q in Replicas(m, owner) && q !in Victims(m1, rs)
      ensures IsOf(m, q, owner, Running) && GoesBefore(m, owner, p, q)
    {
      VictimsComeFirst(m1, rs, p, q);
      OrderGoes(m1, owner, p, q);
      ScaledOrder(m, owner, desired, p, q);
    }
  }

  lemma GoesBeforeTransitive(m: Cluster, owner: OwnerId, p: PodId, q: PodId, r: PodId)
    requires Consistent(m.pods) && m.HasPod(p) && m.HasPod(q)
    requires GoesBefore(m, owner, p, q) && GoesBefore(m, owner, q, r)
    ensures GoesBefore(m, owner, p, r)
  {
    OrderIsTotal(m, owner);
    OrderIsStrict(m, m, owner, p, q);
    hide DeletedBefore;
  }

  lemma OneGoesBefore(m: Cluster, owner: OwnerId, p: PodId, q: PodId)
    requires Consistent(m.pods) && m.HasPod(p) && m.HasPod(q) && p != q
    ensures GoesBefore(m, owner, p, q) <==> !GoesBefore(m, owner, q, p)
  {
    OrderIsTotal(m, owner);
    if GoesBefore(m, owner, p, q) {
      OrderIsStrict(m, m, owner, p, q);
    }
    hide DeletedBefore;
  }

  /** Scaling down by as many as go no later than a running pod deletes those. */
  lemma CutAfter(m: Cluster, owner: OwnerId, p: PodId)
    requires OwnsAlone(m, owner) && IsOf(m, p, owner, Running)
    ensures |UpTo(m, owner, p)| <= |Replicas(m, owner)|
    ensures Elements(VictimsAt(m, owner, |Replicas(m, owner)| - |UpTo(m, owner, p)|)) == UpTo(m, owner, p)
  {
    var upTo, all := UpTo(m, owner, p), Replicas(m, owner);
    Smaller(upTo, all);
    var desired := |all| - |upTo|;
    VictimsAtFacts(m, owner, desired);
    InvPods(m);
    ReplicasLive(m, owner);
    hide Inv, Replicas, VictimsAt, ScaleTo, Consistent, GoesBefore, OwnsAlone;
    var victims := VictimsAt(m, owner, desired);
    NoDuplicatesCardinality(victims);
    if x :| x in upTo && x !in victims {
      forall v | v in victims
        ensures v in upTo && v != x
      {
        if !IsOf(m, v, owner, Pending) {
          assert GoesBefore(m, owner, v, x);
          if x != p {
            GoesBeforeTransitive(m, owner, v, x, p);
          }
        }
      }
      Smaller(Elements(victims), upTo - {x});
    }
    SameCardinality(upTo, Elements(victims));
  }

  lemma ReplicasLive(m: Cluster, owner: OwnerId)
    ensures forall p :: p in Replicas(m, owner) ==>
              m.HasPod(p) && (IsOf(m, p, owner, Pending) || IsOf(m, p, owner, Running))
    ensures forall p :: IsOf(m, p, owner, Running) ==> p in Replicas(m, owner) && !IsOf(m, p, owner, Pending)
  {
  }

  lemma Smaller<T>(a: set<T>, b: set<T>)
    requires a <= b
    ensures |a| <= |b|
  {
    assert b == a + (b - a);
  }

  lemma SameCardinality<T>(a: set<T>, b: set<T>)
    requires a <= b && |a| == |b|
    ensures a == b
  {
    assert b == a + (b - a);
  }

  /** Pods of the owner on the two nodes, the first of either going before the
      second of both. */
  ghost predicate Straddle(
    m: Cluster, owner: OwnerId, n1: NodeId, n2: NodeId, p1: PodId, q1: PodId, p2: PodId, q2: PodId)
  {
    && IsOf(m, p1, owner, Running) && m.RunsOn(p1, n1) && IsOf(m, q1, owner, Running) && m.RunsOn(q1, n1)
    && IsOf(m, p2, owner, Running) && m.RunsOn(p2, n2) && IsOf(m, q2, owner, Running) && m.RunsOn(q2, n2)
    && GoesBefore(m, owner, p1, q1) && GoesBefore(m, owner, p1, q2)
    && GoesBefore(m, owner, p2, q1) && GoesBefore(m, owner, p2, q2)
  }

  /** Scaling to this count leaves both nodes partly emptied. */
  ghost predicate PartlyEmptiesBoth(m: Cluster, owner: OwnerId, desired: nat, n1: NodeId, n2: NodeId)
    requires OwnsAlone(m, owner)
  {
    var m' := ScaleTo(m, owner, desired);
    PartlyEmptied(m, m', owner, n1) && PartlyEmptied(m, m', owner, n2)
  }

  /** A deleted pod goes before a survivor. */
  lemma DeletedGoesBefore(m: Cluster, owner: OwnerId, desired: nat, p: PodId, q: PodId)
    requires OwnsAlone(m, owner)
    requires Deleted(m, ScaleTo(m, owner, desired), owner, p) && Survives(m, ScaleTo(m, owner, desired), owner, q)
    ensures GoesBefore(m, owner, p, q)
  {
    VictimsAtFacts(m, owner, desired);
    ReplicasLive(m, owner);
    hide Replicas, VictimsAt, ScaleTo, GoesBefore, OwnsAlone;
  }

  lemma PartlyEmptiedStraddle(m: Cluster, owner: OwnerId, desired: nat, n1: NodeId, n2: NodeId)
    requires OwnsAlone(m, owner) && PartlyEmptiesBoth(m, owner, desired, n1, n2)
    ensures exists p1, q1, p2, q2 :: Straddle(m, owner, n1, n2, p1, q1, p2, q2)
  {
    hide ScaleTo, GoesBefore, OwnsAlone, IsOf;
    var m' := ScaleTo(m, owner, desired);
    var p1 :| Deleted(m, m', owner, p1) && m.RunsOn(p1, n1);
    var q1 :| Survives(m, m', owner, q1) && m.RunsOn(q1, n1);
    var p2 :| Deleted(m, m', owner, p2) && m.RunsOn(p2, n2);
    var q2 :| Survives(m, m', owner, q2) && m.RunsOn(q2, n2);
    DeletedGoesBefore(m, owner, desired, p1, q1);
    DeletedGoesBefore(m, owner, desired, p1, q2);
    DeletedGoesBefore(m, owner, desired, p2, q1);
    DeletedGoesBefore(m, owner, desired, p2, q2);
    assert Straddle(m, owner, n1, n2, p1, q1, p2, q2);
  }

  /** What becomes of a running pod when all that go no later than `last` are deleted. */
  lemma FateAtCut(m: Cluster, owner: OwnerId, last: PodId, p: PodId)
    requires OwnsAlone(m, owner) && IsOf(m, last, owner, Running) && IsOf(m, p, owner, Running)
    ensures |UpTo(m, owner, last)| <= |Replicas(m, owner)|
    ensures var m' := ScaleTo(m, owner, |Replicas(m, owner)| - |UpTo(m, owner, last)|);
            if GoesBefore(m, owner, last, p) then Survives(m, m', owner, p) else Deleted(m, m', owner, p)
  {
    hide Replicas, VictimsAt, ScaleTo, UpTo;
    CutAfter(m, owner, last);
    UpToRunning(m, owner, last, p);
    var desired := |Replicas(m, owner)| - |UpTo(m, owner, last)|;
    VictimsDeleted(m, owner, desired, p);
    hide OwnsAlone, GoesBefore;
    assert p in VictimsAt(m, owner, desired) <==> p in Elements(VictimsAt(m, owner, desired));
  }

  lemma VictimsDeleted(m: Cluster, owner: OwnerId, desired: nat, p: PodId)
    requires OwnsAlone(m, owner) && IsOf(m, p, owner, Running)
    ensures !ScaleTo(m, owner, desired).HasPod(p) <==> p in VictimsAt(m, owner, desired)
  {
    hide Replicas, VictimsAt, ScaleTo, OwnsAlone, GoesBefore;
    VictimsAtFacts(m, owner, desired);
  }

  lemma UpToRunning(m: Cluster, owner: OwnerId, last: PodId, p: PodId)
    requires Inv(m) && IsOf(m, last, owner, Running) && IsOf(m, p, owner, Running)
    ensures p in UpTo(m, owner, last) <==> !GoesBefore(m, owner, last, p)
  {
    InvPods(m);
    ReplicasLive(m, owner);
    hide Inv, Consistent, Replicas, DeletedBefore;
    if p != last {
      OneGoesBefore(m, owner, last, p);
    }
  }

  lemma StraddleIsCut(
    m: Cluster, owner: OwnerId, n1: NodeId, n2: NodeId, p1: PodId, q1: PodId, p2: PodId, q2: PodId)
    requires OwnsAlone(m, owner) && Straddle(m, owner, n1, n2, p1, q1, p2, q2)
    ensures exists desired: nat :: PartlyEmptiesBoth(m, owner, desired, n1, n2)
  {
    hide Replicas, ScaleTo, UpTo, DeletedBefore, IsOf;
    LastOfTwo(m, owner, p1, p2);
    hide OwnsAlone, GoesBefore;
    var last := if GoesBefore(m, owner, p1, p2) then p2 else p1;
    FateAtCut(m, owner, last, p1);
    FateAtCut(m, owner, last, q1);
    FateAtCut(m, owner, last, p2);
    FateAtCut(m, owner, last, q2);
    var desired := |Replicas(m, owner)| - |UpTo(m, owner, last)|;
    BothPartly(m, owner, desired, n1, n2, p1, q1, p2, q2);
  }

  lemma LastOfTwo(m: Cluster, owner: OwnerId, p: PodId, q: PodId)
    requires Inv(m) && m.HasPod(p) && m.HasPod(q)
    ensures GoesBefore(m, owner, p, q) ==> !GoesBefore(m, owner, q, p)
    ensures !GoesBefore(m, owner, p, p) && !GoesBefore(m, owner, q, q)
  {
    InvPods(m);
    hide Inv, Consistent, DeletedBefore;
    if p != q {
      OneGoesBefore(m, owner, p, q);
    }
  }

  lemma BothPartly(
    m: Cluster, owner: OwnerId, desired: nat, n1: NodeId, n2: NodeId, p1: PodId, q1: PodId, p2: PodId, q2: PodId)
    requires OwnsAlone(m, owner)
    requires m.RunsOn(p1, n1) && m.RunsOn(q1, n1) && m.RunsOn(p2, n2) && m.RunsOn(q2, n2)
    requires var m' := ScaleTo(m, owner, desired);
             && Deleted(m, m', owner, p1) && Survives(m, m', owner, q1)
             && Deleted(m, m', owner, p2) && Survives(m, m', owner, q2)
    ensures PartlyEmptiesBoth(m, owner, desired, n1, n2)
  {
    hide OwnsAlone, ScaleTo, Deleted, Survives;
  }

  /** Some desired count leaves both nodes partly emptied exactly when the owner
      has running pods on them of which one on each goes before one on each. */
  lemma TwoPartlyEmptiedExactly(m: Cluster, owner: OwnerId, n1: NodeId, n2: NodeId)
    requires OwnsAlone(m, owner)
    ensures (exists desired: nat :: PartlyEmptiesBoth(m, owner, desired, n1, n2)) <==>
            (exists p1, q1, p2, q2 :: Straddle(m, owner, n1, n2, p1, q1, p2, q2))
  {
    hide OwnsAlone, PartlyEmptiesBoth, Straddle;
    if desired: nat :| PartlyEmptiesBoth(m, owner, desired, n1, n2) {
      PartlyEmptiedStraddle(m, owner, desired, n1, n2);
    }
    if p1, q1, p2, q2 :| Straddle(m, owner, n1, n2, p1, q1, p2, q2) {
      StraddleIsCut(m, owner, n1, n2, p1, q1, p2, q2);
    }
  }

  lemma OrderGoes(m: Cluster, owner: OwnerId, p: PodId, q: PodId)
    ensures p != q && DeletedBefore(m, owner)(p, q) ==> GoesBefore(m, owner, p, q)
  {
  }

  // ----- The controller -----

  method FindOwned(state: ClusterState, owner: OwnerId) returns (r: Option<ReplicaSetId>)
    requires state.Valid()
    ensures r == FindReplicaSet(state.Model(), owner)
  {
    hide Arena.Valid;
    ghost var m := state.Model();
    r := None;
    var ids := state.replicaSets.Handles();
    for i := 0 to |ids|
      invariant state.Model() == m
      invariant r == FindIn(m, ids[..i], owner)
    {
      assert ids[..i + 1][..i] == ids[..i];
      var rs := state.replicaSets.Find(ids[i]);
      if r.None? && rs.Some? && rs.value.owner == owner {
        r := Some(ids[i]);
      }
    }
    assert ids[..|ids|] == ids;
  }

  method Filter(state: ClusterState, ids: seq<PodId>, owner: OwnerId, phase: Phase) returns (found: seq<PodId>)
    requires state.Valid()
    ensures found == PodsOf(state.Model(), ids, owner, phase)
  {
    hide Arena.Valid;
    ghost var m := state.Model();
    found := [];
    for i := 0 to |ids|
      invariant state.Model() == m
      invariant found == PodsOf(m, ids[..i], owner, phase)
    {
      assert ids[..i + 1][..i] == ids[..i];
      var pod := state.pods.Find(ids[i]);
      if pod.Some? && pod.value.owner == owner && pod.value.phase == phase {
        found := found + [ids[i]];
      }
    }
    assert ids[..|ids|] == ids;
  }

  /** Count the pods that count as replicas. */
  method CountOwnedPods(state: ClusterState, owner: OwnerId) returns (count: nat)
    requires state.Valid()
    ensures count == |Replicas(state.Model(), owner)|
  {
    hide Arena.Valid, Replicas;
    ghost var m := state.Model();
    ghost var counted: set<PodId> := {};
    count := 0;
    var ids := state.pods.Handles();
    for i := 0 to |ids|
      invariant state.Model() == m
      invariant count == |counted| && counted <= Replicas(m, owner)
      invariant forall k :: 0 <= k < |ids| ==> (ids[k] in counted <==> k < i && ids[k] in Replicas(m, owner))
    {
      assert ids[i] in ids;
      ReplicaMeans(m, owner, ids[i]);
      var pod := state.pods.Find(ids[i]);
      if pod.value.owner == owner && (pod.value.phase == Running || pod.value.phase == Pending) {
        count, counted := count + 1, counted + {ids[i]};
      }
    }
    forall p | p in Replicas(m, owner)
      ensures p in counted
    {
      ReplicaMeans(m, owner, p);
      assert p in ids;
    }
    assert counted == Replicas(m, owner);
  }

  lemma ReplicaMeans(m: Cluster, owner: OwnerId, p: PodId)
    ensures p in Replicas(m, owner) <==> IsOf(m, p, owner, Pending) || IsOf(m, p, owner, Running)
  {
  }

  method CountColocated(state: ClusterState, pod: Pod, owner: OwnerId) returns (count: nat)
    requires state.Valid()
    ensures count == Colocated(state.Model(), pod, owner)
  {
    hide Arena.Valid, PodsOf;
    if pod.node.None? {
      return 0;
    }
    var node := state.nodes.Find(pod.node.value);
    if node.None? {
      return 0;
    }
    var siblings := Filter(state, node.value.pods, owner, Running);
    count := |siblings|;
  }

  method ComputeCosts(state: ClusterState, ids: seq<PodId>) returns (costs: seq<(PodId, int)>)
    requires state.Valid()
    ensures costs == CostsOf(state.Model(), ids)
  {
    hide Arena.Valid, Colocated;
    ghost var m := state.Model();
    costs := [];
    for i := 0 to |ids|
      invariant state.Model() == m
      invariant costs == CostsOf(m, ids[..i])
    {
      assert ids[..i + 1][..i] == ids[..i];
      var pod := state.pods.Find(ids[i]);
      if pod.Some? {
        var count := CountColocated(state, pod.value, pod.value.owner);
        costs := costs + [(ids[i], 0 - count as int)];
      }
    }
    assert ids[..|ids|] == ids;
  }

  /** First pass: compute costs from the state; second pass: write them. */
  method UpdateDeletionCosts(state: ClusterState, ids: seq<PodId>)
    requires state.Valid()
    modifies state.pods
    ensures state.Valid() && state.Model() == UpdateCosts(old(state.Model()), ids)
  {
    hide Arena.Valid, CostsOf, ApplyCosts;
    var costs := ComputeCosts(state, ids);
    WriteCosts(state, costs);
  }

  method WriteCosts(state: ClusterState, costs: seq<(PodId, int)>)
    requires state.Valid()
    modifies state.pods
    ensures state.Valid() && state.Model() == ApplyCosts(old(state.Model()), costs)
  {
    hide Arena.Valid, SetDeletionCost;
    for i := 0 to |costs|
      invariant state.Valid() && state.Model() == ApplyCosts(old(state.Model()), costs[..i])
    {
      assert costs[..i + 1][..i] == costs[..i];
      state.SetDeletionCost(costs[i].0, costs[i].1);
    }
    assert costs[..|costs|] == costs;
  }

  method RemoveEach(state: ClusterState, ids: seq<PodId>)
    requires state.Valid()
    modifies state, state.nodes, state.pods
    ensures state.Valid() && state.Model() == RemoveAll(old(state.Model()), ids)
  {
    hide Arena.Valid, RemovePod;
    for i := 0 to |ids|
      invariant state.Valid() && state.Model() == RemoveAll(old(state.Model()), ids[..i])
    {
      assert ids[..i + 1][..i] == ids[..i];
      var _ := state.RemovePod(ids[i]);
    }
    assert ids[..|ids|] == ids;
  }

  type SortKey = (int, nat)

  function SortKeyOf(m: Cluster, p: PodId, owner: OwnerId): SortKey {
    (CostOf(m, p), ColocatedAt(m, p, owner))
  }

  /** Read what the comparison looks at, once per pod. */
  method ReadSortKeys(state: ClusterState, ids: seq<PodId>, owner: OwnerId) returns (keys: map<PodId, SortKey>)
    requires state.Valid()
    ensures forall p :: p in ids ==> p in keys && keys[p] == SortKeyOf(state.Model(), p, owner)
  {
    hide Arena.Valid, Colocated;
    ghost var m := state.Model();
    keys := map[];
    for i := 0 to |ids|
      invariant state.Model() == m
      invariant forall k :: 0 <= k < i ==> ids[k] in keys && keys[ids[k]] == SortKeyOf(m, ids[k], owner)
    {
      var pod := state.pods.Find(ids[i]);
      var key: SortKey := (0, 0);
      if pod.Some? {
        var colocated := CountColocated(state, pod.value, owner);
        key := (if pod.value.deletionCost.Some? then pod.value.deletionCost.value else 0, colocated);
      }
      keys := keys[ids[i] := key];
    }
  }

  method SortForDeletion(state: ClusterState, ids: seq<PodId>, owner: OwnerId) returns (sorted: seq<PodId>)
    requires state.Valid()
    ensures sorted == StableSort(ids, DeletedBefore(state.Model(), owner))
  {
    hide Arena.Valid, CostOf, ColocatedAt, StableSort;
    var keys := ReadSortKeys(state, ids, owner);
    var le := (a: PodId, b: PodId) =>
      && a in keys && b in keys
      && (|| keys[a].0 < keys[b].0
          || (keys[a].0 == keys[b].0 && (keys[a].1 > keys[b].1 || (keys[a].1 == keys[b].1 && a.index >= b.index))));
    StableSortSame(ids, le, DeletedBefore(state.Model(), owner));
    sorted := StableSort(ids, le);
  }

  method UpdateIfNeeded(state: ClusterState, strategy: DeletionCostStrategy, owner: OwnerId)
    requires state.Valid()
    modifies state.pods
    ensures state.Valid() && state.Model() == UpdateIfPreferring(old(state.Model()), strategy, owner)
  {
    hide Arena.Valid, UpdateCosts, PodsOf;
    if strategy.PreferEmptyingNodes? {
      var ids := state.pods.Handles();
      var running := Filter(state, ids, owner, Running);
      UpdateDeletionCosts(state, running);
    }
  }

  method ScaleUp(state: ClusterState, rs: ReplicaSet, count: nat)
    requires state.Valid() && Inv(state.Model())
    modifies state, state.pods
    ensures state.Valid() && Inv(state.Model())
    ensures state.Model() == SubmitMany(old(state.Model()), Replica(rs.owner, rs.template), count)
  {
    hide Arena.Valid, Inv, SubmitPod;
    for i := 0 to count
      invariant state.Valid() && Inv(state.Model())
      invariant state.Model() == SubmitMany(old(state.Model()), Replica(rs.owner, rs.template), i)
    {
      SubmitPodInv(state.Model(), Replica(rs.owner, rs.template));
      var _ := state.SubmitPod(Replica(rs.owner, rs.template));
    }
  }

  method ScaleDown(state: ClusterState, rs: ReplicaSet, actual: nat)
    requires state.Valid() && Inv(state.Model())
    requires actual == |Replicas(state.Model(), rs.owner)| && rs.desiredReplicas < actual
    modifies state, state.nodes, state.pods
    ensures state.Valid()
    ensures state.Model() == RemoveAll(AtSelection(old(state.Model()), rs), Victims(old(state.Model()), rs))
  {
    hide Arena.Valid, Inv, PodsOf, StableSort, DeletedBefore, RemoveAll, UpdateIfPreferring;
    ghost var m := state.Model();
    var ids := state.pods.Handles();
    var pending := Filter(state, ids, rs.owner, Pending);
    var running := Filter(state, ids, rs.owner, Running);
    UpdateIfNeeded(state, rs.strategy, rs.owner);
    var sorted := SortForDeletion(state, running, rs.owner);
    RemoveEach(state, Take(pending + sorted, actual - rs.desiredReplicas));
  }

  /** Handle `ReplicaSetReconcile`. */
  method HandleReconcile(state: ClusterState, owner: OwnerId, time: nat) returns (followUps: seq<ScheduledEvent>)
    requires state.Valid() && Inv(state.Model())
    modifies state, state.nodes, state.pods
    ensures state.Valid()
    ensures state.Model() == Reconcile(old(state.Model()), owner)
    ensures followUps == ReconcileEvents(old(state.Model()), owner, time)
  {
    hide Arena.Valid, Inv, Replicas, UpdateIfPreferring, RemoveAll, SubmitMany, Victims, FindReplicaSet;
    ghost var m := state.Model();
    var found := FindOwned(state, owner);
    if found.None? {
      return [];
    }
    OwnerOfFound(m, owner);
    var rs := state.replicaSets.Find(found.value);
    var actual := CountOwnedPods(state, owner);
    if actual < rs.value.desiredReplicas {
      ScaleUp(state, rs.value, rs.value.desiredReplicas - actual);
      return [At(time + 1, ProvisioningLoop)];
    } else if actual > rs.value.desiredReplicas {
      ScaleDown(state, rs.value, actual);
    }
    UpdateIfNeeded(state, rs.value.strategy, owner);
    followUps := [];
  }

  lemma OwnerOfFound(m: Cluster, owner: OwnerId)
    ensures var r := FindReplicaSet(m, owner);
            r.Some? ==> m.replicaSets.Has(r.value) && m.replicaSets.At(r.value).owner == owner
  {
  }
}
