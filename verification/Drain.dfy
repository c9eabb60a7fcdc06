/** Draining a node: evict its pods one at a time, under the disruption budgets. */
module Drain {
  import opened Types
  import opened Sequences
  import opened Arenas
  import opened ClusterModel
  import opened ClusterStates
  import opened DisruptionBudgets
  import opened Events

  // ----- The drain as a function -----

  /** The pods of a node that may be moved, in list order. */
  function Movable(m: Cluster, ids: seq<PodId>): seq<PodId> {
    if ids == [] then []
    else
      var last := ids[|ids| - 1];
      Movable(m, ids[..|ids| - 1]) + (if m.HasPod(last) && !m.Pod(last).isDaemonset then [last] else [])
  }

  /** Their owners, each once, in order of appearance. */
  function OwnersOf(m: Cluster, ids: seq<PodId>): seq<OwnerId> {
    if ids == [] then []
    else
      var last, owners := ids[|ids| - 1], OwnersOf(m, ids[..|ids| - 1]);
      if m.HasPod(last) && !m.Pod(last).isDaemonset && m.Pod(last).owner !in owners
      then owners + [m.Pod(last).owner] else owners
  }

  datatype DrainState = DrainState(cluster: Cluster, evicted: seq<PodId>)

  predicate Evictable(m: Cluster, p: PodId) {
    m.HasPod(p) && m.Pod(p).phase == Running && AllowsEviction(m, m.Pod(p))
  }

  /** Evict the listed pods in turn, checking the budgets again before each. */
  function DrainPods(m: Cluster, ids: seq<PodId>): DrainState {
    if ids == [] then DrainState(m, [])
    else
      var s, p := DrainPods(m, ids[..|ids| - 1]), ids[|ids| - 1];
      if Evictable(s.cluster, p) then DrainState(EvictPod(s.cluster, p), s.evicted + [p]) else s
  }

  function Terminations(evicted: seq<PodId>, time: nat): seq<ScheduledEvent> {
    seq(|evicted|, i requires 0 <= i < |evicted| => At(time, PodTerminating(evicted[i], ConsolidationDrain)))
  }

  function Reconciles(owners: seq<OwnerId>, time: nat): seq<ScheduledEvent> {
    seq(|owners|, i requires 0 <= i < |owners| => At(time + 1, ReplicaSetReconcile(owners[i])))
  }

  function DrainEvents(m: Cluster, m': Cluster, ids: seq<PodId>, evicted: seq<PodId>, time: nat): seq<ScheduledEvent> {
    Terminations(evicted, time) + Reconciles(OwnersOf(m, ids), time) +
    (if m'.pending != [] then [At(time + 1, ProvisioningLoop)] else [])
  }

  // ----- What a drain guarantees -----

  lemma {:induction false} MovableFacts(m: Cluster, ids: seq<PodId>)
    ensures forall p :: p in Movable(m, ids) <==> p in ids && m.HasPod(p) && !m.Pod(p).isDaemonset
    ensures NoDuplicates(ids) ==> NoDuplicates(Movable(m, ids))
  {
    if ids != [] {
      var front, last := ids[..|ids| - 1], ids[|ids| - 1];
      MovableFacts(m, front);
      assert ids == front + [last];
      assert NoDuplicates(ids) ==> last !in front;
    }
  }

  lemma RunningPodCanLeave(m: Cluster, p: PodId)
    requires Inv(m) && m.HasPod(p) && m.Pod(p).phase == Running
    ensures CanEvict(m, p)
  {
    assert PodAgrees(m, p);
  }

  /** The pods reported as evicted are exactly the ones that lost their place,
      and each is reported once. */
  lemma {:induction false} DrainChanges(m: Cluster, ids: seq<PodId>)
    requires Inv(m) && NoDuplicates(ids)
    ensures var s := DrainPods(m, ids);
            && Inv(s.cluster) && s.cluster.pdbs == m.pdbs
            && NoDuplicates(s.evicted) && (forall p :: p in s.evicted ==> p in ids)
            && (forall p :: s.cluster.HasPod(p) <==> m.HasPod(p))
            && (forall p :: m.HasPod(p) ==>
                  s.cluster.Pod(p) == if p in s.evicted then m.Pod(p).(phase := Pending, node := None) else m.Pod(p))
            && (forall p :: p in s.evicted ==> m.HasPod(p) && m.Pod(p).phase == Running)
  {
    hide Inv, AllowsEviction;
    if ids != [] {
      var front, last := ids[..|ids| - 1], ids[|ids| - 1];
      assert ids == front + [last];
      assert last !in front;
      DrainChanges(m, front);
      var s := DrainPods(m, front);
      if Evictable(s.cluster, last) {
        RunningPodCanLeave(s.cluster, last);
        EvictPodInv(s.cluster, last);
      }
    }
  }

  /** Running pods that a budget covers, compared with its floor. */
  ghost predicate FloorKept(m: Cluster, m': Cluster, pdb: PodDisruptionBudget) {
    |RunningMatching(m', pdb.selector)| >= Min(pdb.minAvailable, |RunningMatching(m, pdb.selector)|)
  }

  /** A drain never takes a budget below its floor, nor further below it. */
  lemma {:induction false} DrainKeepsFloors(m: Cluster, ids: seq<PodId>, pdb: PodDisruptionBudget)
    requires Inv(m) && NoDuplicates(ids) && pdb in m.pdbs
    ensures FloorKept(m, DrainPods(m, ids).cluster, pdb)
  {
    if ids != [] {
      var front, last := ids[..|ids| - 1], ids[|ids| - 1];
      assert NoDuplicates(front);
      DrainKeepsFloors(m, front, pdb);
      DrainChanges(m, front);
      hide Inv, RunningMatching, Matches;
      var s := DrainPods(m, front);
      if Evictable(s.cluster, last) {
        RunningPodCanLeave(s.cluster, last);
        EvictRunning(s.cluster, last, pdb.selector);
      }
    }
  }

  /** Evictions only make the budgets tighter. */
  lemma BlockedStaysBlocked(m: Cluster, p: PodId, pod: Pod)
    requires CanEvict(m, p) && !AllowsEviction(m, pod)
    ensures !AllowsEviction(EvictPod(m, p), pod)
  {
    var pdb :| pdb in m.pdbs && Matches(pod.labels, pdb.selector) &&
      |RunningMatching(m, pdb.selector)| <= pdb.minAvailable;
    EvictRunning(m, p, pdb.selector);
    hide RunningMatching;
    assert |RunningMatching(m, pdb.selector) - {p}| <= |RunningMatching(m, pdb.selector)|;
  }

  /** Every listed pod still running after the drain is one that a budget still protects. */
  lemma {:induction false} DrainEvictsAllItMay(m: Cluster, ids: seq<PodId>, p: PodId)
    requires Inv(m) && NoDuplicates(ids) && p in ids && m.HasPod(p) && m.Pod(p).phase == Running
    ensures var s := DrainPods(m, ids); p in s.evicted || !AllowsEviction(s.cluster, m.Pod(p))
  {
    var front, last := ids[..|ids| - 1], ids[|ids| - 1];
    assert ids == front + [last];
    assert last !in front;
    DrainChanges(m, front);
    hide Inv, AllowsEviction, RunningMatching;
    var s := DrainPods(m, front);
    if p in front {
      DrainEvictsAllItMay(m, front, p);
      if Evictable(s.cluster, last) && !AllowsEviction(s.cluster, m.Pod(p)) {
        RunningPodCanLeave(s.cluster, last);
        BlockedStaysBlocked(s.cluster, last, m.Pod(p));
      }
    }
  }

  // ----- The handler -----

  /** Handle `NodeDrained`: evict what the budgets allow, then ask for reconciles and provisioning. */
  method HandleNodeDrained(state: ClusterState, n: NodeId, time: nat) returns (followUps: seq<ScheduledEvent>)
    requires state.Valid()
    modifies state, state.nodes, state.pods
    ensures state.Valid()
    ensures !old(state.Model()).HasNode(n) ==> state.Model() == old(state.Model()) && followUps == []
    ensures old(state.Model()).HasNode(n) ==>
              var m := old(state.Model());
              var ids := m.Node(n).pods;
              var s := DrainPods(m, Movable(m, ids));
              state.Model() == s.cluster && followUps == DrainEvents(m, s.cluster, ids, s.evicted, time)
  {
    hide Arena.Valid, DrainPods, Terminations, Reconciles;
    var node := state.nodes.Find(n);
    if node.None? {
      return [];
    }
    var owners, movable := Collect(state, node.value.pods);
    var evicted := EvictInTurn(state, movable);
    followUps := Terminations(evicted, time) + Reconciles(owners, time);
    if state.pendingQueue != [] {
      followUps := followUps + [At(time + 1, ProvisioningLoop)];
    }
  }

  method Collect(state: ClusterState, ids: seq<PodId>) returns (owners: seq<OwnerId>, movable: seq<PodId>)
    requires state.Valid()
    ensures owners == OwnersOf(state.Model(), ids) && movable == Movable(state.Model(), ids)
  {
    hide Arena.Valid;
    ghost var m := state.Model();
    owners, movable := [], [];
    for i := 0 to |ids|
      invariant state.Model() == m
      invariant owners == OwnersOf(m, ids[..i]) && movable == Movable(m, ids[..i])
    {
      assert ids[..i + 1][..i] == ids[..i];
      var pod := state.pods.Find(ids[i]);
      if pod.Some? && !pod.value.isDaemonset {
        if pod.value.owner !in owners {
          owners := owners + [pod.value.owner];
        }
        movable := movable + [ids[i]];
      }
    }
    assert ids[..|ids|] == ids;
  }

  method EvictInTurn(state: ClusterState, ids: seq<PodId>) returns (evicted: seq<PodId>)
    requires state.Valid()
    modifies state, state.nodes, state.pods
    ensures state.Valid()
    ensures var s := DrainPods(old(state.Model()), ids); state.Model() == s.cluster && evicted == s.evicted
  {
    hide Arena.Valid, AllowsEviction, EvictPod;
    ghost var m := state.Model();
    evicted := [];
    for i := 0 to |ids|
      invariant state.Valid()
      invariant var s := DrainPods(m, ids[..i]); state.Model() == s.cluster && evicted == s.evicted
    {
      assert ids[..i + 1][..i] == ids[..i];
      var pod := state.pods.Find(ids[i]);
      if pod.Some? && pod.value.phase == Running {
        var allowed := CheckEviction(state, pod.value);
        if allowed {
          var _ := state.EvictPod(ids[i]);
          evicted := evicted + [ids[i]];
        }
      }
    }
    assert ids[..|ids|] == ids;
  }

  /** Draining a live node: budgets keep their floors, daemonset pods and pods
      elsewhere keep their places, every movable pod left is still protected,
      and terminations are reported for exactly the pods evicted. */
  lemma DrainIsSafe(m: Cluster, n: NodeId)
    requires Inv(m) && m.HasNode(n)
    ensures var ids := Movable(m, m.Node(n).pods);
            var s := DrainPods(m, ids);
            && Inv(s.cluster)
            && (forall pdb :: pdb in m.pdbs ==> FloorKept(m, s.cluster, pdb))
            && NoDuplicates(s.evicted)
            && (forall p :: m.HasPod(p) ==> s.cluster.HasPod(p) && (s.cluster.Pod(p) != m.Pod(p) <==> p in s.evicted))
            && (forall p :: p in s.evicted ==>
                m.RunsOn(p, n) && !m.Pod(p).isDaemonset && s.cluster.Pod(p).phase == Pending)
            && (forall p :: m.RunsOn(p, n) && !m.Pod(p).isDaemonset && p !in s.evicted ==>
                !AllowsEviction(s.cluster, m.Pod(p)))
  {
    var ids := Movable(m, m.Node(n).pods);
    var s := DrainPods(m, ids);
    assert NodeAgrees(m, n);
    MovableFacts(m, m.Node(n).pods);
    DrainChanges(m, ids);
    forall pdb | pdb in m.pdbs
      ensures FloorKept(m, s.cluster, pdb)
    {
      DrainKeepsFloors(m, ids, pdb);
    }
    hide AllowsEviction, FloorKept, DrainPods, Consistent, QueueAgrees;
    forall p | m.RunsOn(p, n) && !m.Pod(p).isDaemonset && p !in s.evicted
      ensures !AllowsEviction(s.cluster, m.Pod(p))
    {
      assert PodAgrees(m, p);
      DrainEvictsAllItMay(m, ids, p);
    }
  }
}
