/** Drift replacement: cordon, drain under a deadline, terminate. A node goes only
    when no pod points to it any more, and by its deadline at the latest. */
module Drift {
  import opened Types
  import opened Sequences
  import opened Arenas
  import opened ClusterModel
  import opened ClusterStates
  import opened DisruptionBudgets
  import opened Events
  import opened NodePools
  import opened Engines

  datatype DriftSpec = DriftSpec(pool: NodePool, profile: Option<VersionProfile>, scanInterval: nat, drainTimeout: nat)

  datatype DriftingNode = DriftingNode(node: NodeId, deadline: nat)

  /** The cluster, the nodes being drained and the events to schedule. */
  datatype DriftState = DriftState(cluster: Cluster, draining: seq<DriftingNode>, followUps: seq<ScheduledEvent>)

  predicate IsDrifted(spec: DriftSpec, node: Node) {
    && spec.pool.instanceTypes != []
    && (node.instanceType !in spec.pool.instanceTypes ||
        ((spec.profile.Some? ==> spec.profile.value.hashBasedDrift) && !Matches(node.labels, spec.pool.labels)))
  }

  // ----- Draining -----

  /** Running pods that the budgets let go, all judged before any of them goes. */
  function Released(m: Cluster, ids: seq<PodId>): seq<PodId> {
    if ids == [] then []
    else
      var p := ids[|ids| - 1];
      Released(m, ids[..|ids| - 1]) +
      (if m.HasPod(p) && m.Pod(p).phase == Running && AllowsEviction(m, m.Pod(p)) then [p] else [])
  }

  function TryDrain(m: Cluster, n: NodeId): Cluster {
    if m.HasNode(n) then EvictAll(m, Released(m, m.Node(n).pods)) else m
  }

  function ForceDrain(m: Cluster, n: NodeId): Cluster {
    if m.HasNode(n) then EvictAll(m, m.Node(n).pods) else m
  }

  predicate Drained(m: Cluster, n: NodeId) {
    m.HasNode(n) ==> m.Node(n).pods == []
  }

  // ----- The handler as a function -----

  function Terminate(s: DriftState, m: Cluster, n: NodeId, at: nat): DriftState {
    s.(cluster := RemoveNode(m, n), followUps := s.followUps + [At(at, NodeTerminated(n))])
  }

  /** A node already draining: finish, force at the deadline, or keep trying. */
  function Continue(s: DriftState, entry: DriftingNode, time: nat): DriftState {
    if !s.cluster.HasNode(entry.node) then s
    else if time >= entry.deadline then Terminate(s, ForceDrain(s.cluster, entry.node), entry.node, time + 1)
    else
      var m := TryDrain(s.cluster, entry.node);
      if Drained(m, entry.node) then Terminate(s, m, entry.node, time + 1)
      else s.(cluster := m, draining := s.draining + [entry])
  }

  function ContinueAll(m: Cluster, entries: seq<DriftingNode>, time: nat): DriftState {
    if entries == [] then DriftState(m, [], [])
    else Continue(ContinueAll(m, entries[..|entries| - 1], time), entries[|entries| - 1], time)
  }

  predicate IsDraining(draining: seq<DriftingNode>, n: NodeId) {
    exists d | d in draining :: d.node == n
  }

  predicate NewlyDrifted(spec: DriftSpec, s: DriftState, n: NodeId) {
    s.cluster.HasNode(n) && IsDrifted(spec, s.cluster.Node(n)) && s.cluster.Node(n).ready && !IsDraining(s.draining, n)
  }

  function Scan(spec: DriftSpec, s: DriftState, ids: seq<NodeId>): seq<NodeId> {
    if ids == [] then []
    else
      var n := ids[|ids| - 1];
      Scan(spec, s, ids[..|ids| - 1]) + (if NewlyDrifted(spec, s, n) then [n] else [])
  }

  /** A newly drifted node: cordon it, and drain it at once or by a deadline. */
  function Begin(spec: DriftSpec, s: DriftState, n: NodeId, time: nat): DriftState {
    var cordoned := s.(followUps := s.followUps + [At(time + 1, NodeCordoned(n))]);
    var m := TryDrain(s.cluster, n);
    if Drained(m, n) then Terminate(cordoned, m, n, time + 2)
    else cordoned.(cluster := m, draining := s.draining + [DriftingNode(n, time + spec.drainTimeout)])
  }

  function BeginAll(spec: DriftSpec, s: DriftState, ids: seq<NodeId>, time: nat): DriftState {
    if ids == [] then s
    else Begin(spec, BeginAll(spec, s, ids[..|ids| - 1], time), ids[|ids| - 1], time)
  }

  function Reschedule(spec: DriftSpec, s: DriftState, time: nat): DriftState {
    s.(followUps := s.followUps +
                    (if s.followUps != [] then [At(time + 3, ProvisioningLoop)] else []) +
                    [At(time + spec.scanInterval, ConsolidationLoop)])
  }

  /** One scan: continue the drains under way, then begin those of newly drifted nodes. */
  function ScanNodes(spec: DriftSpec, m: Cluster, draining: seq<DriftingNode>, time: nat): DriftState {
    var s := ContinueAll(m, draining, time);
    Reschedule(spec, BeginAll(spec, s, Scan(spec, s, Order(s.cluster.nodes)), time), time)
  }

  // ----- Evictions displace running pods and nothing else -----

  /** Pods keep their identity; those that change go from Running to Pending.
      Nodes may disappear, but only once no pod points to them any more. */
  ghost predicate OnlyDisplaces(m: Cluster, m': Cluster) {
    && Inv(m')
    && (forall p :: m'.HasPod(p) <==> m.HasPod(p))
    && (forall p :: m.HasPod(p) && m'.Pod(p) != m.Pod(p) ==>
        m.Pod(p).phase == Running && m'.Pod(p) == Unplaced(m.Pod(p)))
    && (forall n :: m'.HasNode(n) ==> m.HasNode(n) && Unloaded(m'.Node(n)) == Unloaded(m.Node(n)))
    && (forall n :: m.HasNode(n) && !m'.HasNode(n) ==> Vacated(m', n))
    && m'.nodes.generations == m.nodes.generations
  }

  /** No pod points to the node, not even one that is gone. */
  ghost predicate Vacated(m: Cluster, n: NodeId) {
    forall p :: !m.RunsOn(p, n)
  }

  lemma DisplacesNothing(m: Cluster)
    requires Inv(m)
    ensures OnlyDisplaces(m, m)
  {
  }

  lemma DisplacesTransitive(a: Cluster, b: Cluster, c: Cluster)
    requires OnlyDisplaces(a, b) && OnlyDisplaces(b, c)
    ensures OnlyDisplaces(a, c)
  {
    hide Inv;
    forall n | a.HasNode(n) && !c.HasNode(n)
      ensures Vacated(c, n)
    {
      if !b.HasNode(n) {
        assert Vacated(b, n);
        forall p
          ensures !c.RunsOn(p, n)
        {
          assert !b.RunsOn(p, n);
        }
      }
    }
  }

  lemma EvictChanges(m: Cluster, p: PodId)
    requires m.HasPod(p) ==> (m.Pod(p).node.Some? <==> m.Pod(p).phase == Running)
    ensures var m' := EvictPod(m, p);
            && (forall q :: m'.HasPod(q) <==> m.HasPod(q))
            && (forall q :: m.HasPod(q) && m'.Pod(q) != m.Pod(q) ==>
                m.Pod(q).phase == Running && m'.Pod(q) == Unplaced(m.Pod(q)))
            && (forall n :: m'.HasNode(n) <==> m.HasNode(n))
            && (forall n :: m.HasNode(n) ==> Unloaded(m'.Node(n)) == Unloaded(m.Node(n)))
            && m'.nodes.generations == m.nodes.generations
            && m'.nodes.live.Keys == m.nodes.live.Keys
            && (forall n :: !m'.RunsOn(p, n))
  {
    hide Without;
  }

  lemma EvictDisplaces(m: Cluster, p: PodId)
    requires Inv(m)
    ensures OnlyDisplaces(m, EvictPod(m, p))
    ensures EvictPod(m, p).nodes.live.Keys == m.nodes.live.Keys
    ensures forall n :: !EvictPod(m, p).RunsOn(p, n)
  {
    EvictPodInv(m, p);
    assert m.HasPod(p) ==> PodAgrees(m, p);
    hide Inv, EvictPod;
    EvictChanges(m, p);
  }

  /** Evicting a list of pods leaves none of them running. */
  lemma {:induction false} EvictAllDisplaces(m: Cluster, ids: seq<PodId>)
    requires Inv(m)
    ensures OnlyDisplaces(m, EvictAll(m, ids))
    ensures EvictAll(m, ids).nodes.live.Keys == m.nodes.live.Keys
    ensures forall p, n :: p in ids ==> !EvictAll(m, ids).RunsOn(p, n)
  {
    hide Inv, EvictPod;
    if ids == [] {
      DisplacesNothing(m);
    } else {
      var front, last := ids[..|ids| - 1], ids[|ids| - 1];
      EvictAllDisplaces(m, front);
      var m1, m2 := EvictAll(m, front), EvictAll(m, ids);
      EvictDisplaces(m1, last);
      DisplacesTransitive(m, m1, m2);
      forall p, n | p in ids
        ensures !m2.RunsOn(p, n)
      {
        if p != last {
          assert p in front;
          assert !m1.RunsOn(p, n);
        }
      }
    }
  }

  lemma TryDrainDisplaces(m: Cluster, n: NodeId)
    requires Inv(m)
    ensures OnlyDisplaces(m, TryDrain(m, n)) && TryDrain(m, n).nodes.live.Keys == m.nodes.live.Keys
  {
    hide Inv, OnlyDisplaces;
    if m.HasNode(n) {
      EvictAllDisplaces(m, Released(m, m.Node(n).pods));
    } else {
      DisplacesNothing(m);
    }
  }

  /** A forced drain always empties the node. */
  lemma ForceDrainEmpties(m: Cluster, n: NodeId)
    requires Inv(m) && m.HasNode(n)
    ensures OnlyDisplaces(m, ForceDrain(m, n)) && ForceDrain(m, n).nodes.live.Keys == m.nodes.live.Keys
    ensures Vacated(ForceDrain(m, n), n)
  {
    var m' := ForceDrain(m, n);
    EvictAllDisplaces(m, m.Node(n).pods);
    assert NodeAgrees(m, n);
    hide Inv, EvictAll;
    forall p
      ensures !m'.RunsOn(p, n)
    {
      if m'.HasPod(p) && !m.RunsOn(p, n) {
        assert m'.Pod(p) == m.Pod(p) || m'.Pod(p).node.None?;
      }
    }
  }

  lemma DrainedIsVacated(m: Cluster, n: NodeId)
    requires Inv(m) && m.HasNode(n) && Drained(m, n)
    ensures Vacated(m, n)
  {
    assert NodeAgrees(m, n);
  }

  /** Removing a vacated node orphans nobody. */
  lemma RemoveDisplaces(m: Cluster, n: NodeId)
    requires Inv(m) && Vacated(m, n)
    ensures OnlyDisplaces(m, RemoveNode(m, n))
  {
    RemoveNodeInv(m, n);
    hide Inv;
    var m' := RemoveNode(m, n);
    forall p
      ensures !m'.RunsOn(p, n)
    {
      assert !m.RunsOn(p, n);
    }
    assert forall k :: m.HasNode(k) && !m'.HasNode(k) ==> k == n;
  }

  // ----- What one scan guarantees -----

  ghost predicate Distinct(draining: seq<DriftingNode>) {
    forall i, j :: 0 <= i < j < |draining| ==> draining[i].node != draining[j].node
  }

  predicate TerminatedIn(events: seq<ScheduledEvent>, n: NodeId) {
    exists e | e in events :: e.event == NodeTerminated(n)
  }

  /** The nodes removed are exactly those reported as terminated, and the
      entries still draining are distinct live nodes. */
  ghost predicate Accounts(m: Cluster, s: DriftState) {
    && OnlyDisplaces(m, s.cluster)
    && (forall n :: m.HasNode(n) && !s.cluster.HasNode(n) <==> TerminatedIn(s.followUps, n))
    && (forall d :: d in s.draining ==> s.cluster.HasNode(d.node))
    && Distinct(s.draining)
  }

  lemma SameNodes(m: Cluster, m': Cluster)
    requires m'.nodes.live.Keys == m.nodes.live.Keys
    ensures forall n :: m'.HasNode(n) <==> m.HasNode(n)
  {
    assert forall n :: m.HasNode(n) <==> n in m.nodes.live.Keys;
  }

  lemma RemoveDrained(m: Cluster, m0: Cluster, m1: Cluster, n: NodeId)
    requires OnlyDisplaces(m, m0) && OnlyDisplaces(m0, m1) && Vacated(m1, n)
    requires m0.HasNode(n) && m1.nodes.live.Keys == m0.nodes.live.Keys
    ensures var m' := RemoveNode(m1, n);
            OnlyDisplaces(m, m') && m.HasNode(n) && forall k :: m'.HasNode(k) <==> m0.HasNode(k) && k != n
  {
    hide Vacated, Inv;
    assert m.HasNode(n);
    SameNodes(m0, m1);
    assert Inv(m1);
    hide OnlyDisplaces;
    RemoveDisplaces(m1, n);
    DisplacesTransitive(m0, m1, RemoveNode(m1, n));
    DisplacesTransitive(m, m0, RemoveNode(m1, n));
  }

  lemma TerminateAccounts(m: Cluster, s: DriftState, m1: Cluster, n: NodeId, at: nat)
    requires Accounts(m, s) && s.cluster.HasNode(n) && !IsDraining(s.draining, n)
    requires OnlyDisplaces(s.cluster, m1) && m1.nodes.live.Keys == s.cluster.nodes.live.Keys && Vacated(m1, n)
    ensures Accounts(m, Terminate(s, m1, n, at))
    ensures forall k :: Terminate(s, m1, n, at).cluster.HasNode(k) <==> s.cluster.HasNode(k) && k != n
  {
    hide OnlyDisplaces, Vacated, TerminatedIn;
    RemoveDrained(m, s.cluster, m1, n);
    TerminatedAppend(s.followUps, At(at, NodeTerminated(n)));
  }

  lemma TerminatedAppend(events: seq<ScheduledEvent>, e: ScheduledEvent)
    ensures forall n :: TerminatedIn(events + [e], n) <==> TerminatedIn(events, n) || e.event == NodeTerminated(n)
  {
    forall n
      ensures TerminatedIn(events + [e], n) <==> TerminatedIn(events, n) || e.event == NodeTerminated(n)
    {
      assert e in events + [e];
    }
  }

  lemma KeepAccounts(m: Cluster, s: DriftState, m1: Cluster, entry: DriftingNode)
    requires Accounts(m, s) && s.cluster.HasNode(entry.node) && !IsDraining(s.draining, entry.node)
    requires OnlyDisplaces(s.cluster, m1) && m1.nodes.live.Keys == s.cluster.nodes.live.Keys
    ensures Accounts(m, s.(cluster := m1, draining := s.draining + [entry]))
  {
    hide OnlyDisplaces, TerminatedIn;
    DisplacesTransitive(m, s.cluster, m1);
    SameNodes(s.cluster, m1);
  }

  lemma ContinueAccounts(m: Cluster, s: DriftState, entry: DriftingNode, time: nat)
    requires Accounts(m, s) && !IsDraining(s.draining, entry.node)
    ensures var s' := Continue(s, entry, time);
            && Accounts(m, s')
            && (s'.draining == s.draining || s'.draining == s.draining + [entry])
            && (entry in s'.draining <==> s'.cluster.HasNode(entry.node))
            && (s'.cluster.HasNode(entry.node) ==> time < entry.deadline)
            && (forall n :: s'.cluster.HasNode(n) ==> s.cluster.HasNode(n))
            && (forall n :: n != entry.node && s.cluster.HasNode(n) ==> s'.cluster.HasNode(n))
  {
    var n := entry.node;
    if s.cluster.HasNode(n) {
      assert Inv(s.cluster);
      if time >= entry.deadline {
        ForceDrainEmpties(s.cluster, n);
        hide Accounts, OnlyDisplaces, ForceDrain;
        TerminateAccounts(m, s, ForceDrain(s.cluster, n), n, time + 1);
      } else {
        TryDrainDisplaces(s.cluster, n);
        var m1 := TryDrain(s.cluster, n);
        if Drained(m1, n) {
          SameNodes(s.cluster, m1);
          DrainedIsVacated(m1, n);
          hide Accounts, OnlyDisplaces, TryDrain;
          TerminateAccounts(m, s, m1, n, time + 1);
        } else {
          hide TryDrain;
          KeepAccounts(m, s, m1, entry);
          SameNodes(s.cluster, m1);
        }
      }
    }
  }

  /** After the first phase every entry is either still draining before its
      deadline, or its node is gone. */
  lemma {:induction false} ContinueAllAccounts(m: Cluster, entries: seq<DriftingNode>, time: nat)
    requires Inv(m) && Distinct(entries)
    ensures var s := ContinueAll(m, entries, time);
            && Accounts(m, s)
            && (forall d :: d in s.draining ==> d in entries)
            && (forall d :: d in entries ==> (d in s.draining <==> s.cluster.HasNode(d.node)))
            && (forall d :: d in entries && s.cluster.HasNode(d.node) ==> time < d.deadline)
  {
    hide Inv, Continue, OnlyDisplaces;
    if entries == [] {
      DisplacesNothing(m);
    } else {
      var front, last := entries[..|entries| - 1], entries[|entries| - 1];
      assert entries == front + [last];
      ContinueAllAccounts(m, front, time);
      var s := ContinueAll(m, front, time);
      assert forall d :: d in front ==> d.node != last.node;
      hide Accounts;
      ContinueAccounts(m, s, last, time);
      ContinueAllStep(m, s, Continue(s, last, time), front, last);
    }
  }

  lemma ContinueAllStep(m: Cluster, s: DriftState, s': DriftState, front: seq<DriftingNode>, last: DriftingNode)
    requires Accounts(m, s')
    requires forall d :: d in s.draining ==> d in front
    requires forall d :: d in front ==> (d in s.draining <==> s.cluster.HasNode(d.node)) && d.node != last.node
    requires s'.draining == s.draining || s'.draining == s.draining + [last]
    requires forall n :: s'.cluster.HasNode(n) ==> s.cluster.HasNode(n)
    ensures forall d :: d in front ==> (d in s'.draining <==> s'.cluster.HasNode(d.node))
    ensures forall d :: d in s'.draining ==> d in front + [last]
  {
    hide OnlyDisplaces, Distinct;
  }

  lemma CordonedAccounts(m: Cluster, s: DriftState, n: NodeId, at: nat)
    requires Accounts(m, s)
    ensures Accounts(m, s.(followUps := s.followUps + [At(at, NodeCordoned(n))]))
  {
    hide OnlyDisplaces;
    TerminatedAppend(s.followUps, At(at, NodeCordoned(n)));
  }

  /** What the second phase does not change about the nodes it has yet to visit. */
  lemma BeginAccounts(spec: DriftSpec, m: Cluster, s: DriftState, n: NodeId, time: nat)
    requires Accounts(m, s) && s.cluster.HasNode(n) && !IsDraining(s.draining, n)
    ensures var s' := Begin(spec, s, n, time);
            && Accounts(m, s') && OnlyDisplaces(s.cluster, s'.cluster)
            && s'.draining ==
               s.draining + (if s'.cluster.HasNode(n) then [DriftingNode(n, time + spec.drainTimeout)] else [])
            && (forall k :: k != n ==> (s'.cluster.HasNode(k) <==> s.cluster.HasNode(k)))
  {
    var cordoned := s.(followUps := s.followUps + [At(time + 1, NodeCordoned(n))]);
    CordonedAccounts(m, s, n, time + 1);
    assert Inv(s.cluster);
    hide *;
    TryDrainDisplaces(s.cluster, n);
    SameNodes(s.cluster, TryDrain(s.cluster, n));
    if Drained(TryDrain(s.cluster, n), n) {
      BeginTerminates(m, cordoned, TryDrain(s.cluster, n), n, time + 2);
    } else {
      KeepAccounts(m, cordoned, TryDrain(s.cluster, n), DriftingNode(n, time + spec.drainTimeout));
    }
    BeginIs(spec, s, n, time);
  }

  lemma BeginIs(spec: DriftSpec, s: DriftState, n: NodeId, time: nat)
    ensures var cordoned, m := s.(followUps := s.followUps + [At(time + 1, NodeCordoned(n))]), TryDrain(s.cluster, n);
            Begin(spec, s, n, time) ==
            if Drained(m, n) then Terminate(cordoned, m, n, time + 2)
            else cordoned.(cluster := m, draining := s.draining + [DriftingNode(n, time + spec.drainTimeout)])
  {
  }

  lemma BeginTerminates(m: Cluster, s: DriftState, m1: Cluster, n: NodeId, at: nat)
    requires Accounts(m, s) && s.cluster.HasNode(n) && !IsDraining(s.draining, n) && Inv(s.cluster)
    requires OnlyDisplaces(s.cluster, m1) && m1.nodes.live.Keys == s.cluster.nodes.live.Keys && Drained(m1, n)
    ensures var s' := Terminate(s, m1, n, at);
            && Accounts(m, s') && OnlyDisplaces(s.cluster, s'.cluster) && s'.draining == s.draining
            && (forall k :: s'.cluster.HasNode(k) <==> s.cluster.HasNode(k) && k != n)
  {
    SameNodes(s.cluster, m1);
    assert Inv(m1);
    DrainedIsVacated(m1, n);
    hide Accounts, OnlyDisplaces, Vacated, Inv;
    TerminateAccounts(m, s, m1, n, at);
    DisplacesNothing(s.cluster);
    RemoveDrained(s.cluster, s.cluster, m1, n);
  }

  lemma {:induction false} ScanMembers(spec: DriftSpec, s: DriftState, ids: seq<NodeId>)
    ensures forall n :: n in Scan(spec, s, ids) <==> n in ids && NewlyDrifted(spec, s, n)
    ensures NoDuplicates(ids) ==> NoDuplicates(Scan(spec, s, ids))
  {
    hide NewlyDrifted;
    if ids != [] {
      var front, last := ids[..|ids| - 1], ids[|ids| - 1];
      ScanMembers(spec, s, front);
      assert ids == front + [last];
      assert NoDuplicates(ids) ==> last !in front;
    }
  }

  /** Every node begun is either gone or draining towards the new deadline;
      every other node and entry stays as it is. */
  ghost predicate BegunAll(spec: DriftSpec, s: DriftState, s': DriftState, ids: seq<NodeId>, time: nat) {
    && (forall k :: k !in ids ==> (s'.cluster.HasNode(k) <==> s.cluster.HasNode(k)))
    && (forall d :: d in s'.draining <==>
          d in s.draining || (d.node in ids && s'.cluster.HasNode(d.node) && d.deadline == time + spec.drainTimeout))
  }

  lemma BegunOneMore(
    spec: DriftSpec, s: DriftState, s1: DriftState, s2: DriftState, front: seq<NodeId>, n: NodeId, time: nat)
    requires BegunAll(spec, s, s1, front, time) && n !in front
    requires s2.draining ==
             s1.draining + (if s2.cluster.HasNode(n) then [DriftingNode(n, time + spec.drainTimeout)] else [])
    requires forall k :: k != n ==> (s2.cluster.HasNode(k) <==> s1.cluster.HasNode(k))
    ensures BegunAll(spec, s, s2, front + [n], time)
  {
  }

  lemma StillToBegin(spec: DriftSpec, s: DriftState, s1: DriftState, front: seq<NodeId>, n: NodeId, time: nat)
    requires BegunAll(spec, s, s1, front, time) && n !in front
    ensures s1.cluster.HasNode(n) <==> s.cluster.HasNode(n)
    ensures IsDraining(s1.draining, n) <==> IsDraining(s.draining, n)
  {
  }

  lemma {:induction false} BeginAllAccounts(spec: DriftSpec, m: Cluster, s: DriftState, ids: seq<NodeId>, time: nat)
    requires Accounts(m, s) && NoDuplicates(ids)
    requires forall n :: n in ids ==> s.cluster.HasNode(n) && !IsDraining(s.draining, n)
    ensures var s' := BeginAll(spec, s, ids, time);
            Accounts(m, s') && OnlyDisplaces(s.cluster, s'.cluster) && BegunAll(spec, s, s', ids, time)
  {
    if ids == [] {
      assert Inv(s.cluster);
      DisplacesNothing(s.cluster);
      hide OnlyDisplaces;
    } else {
      hide Accounts, OnlyDisplaces, Begin, BegunAll, IsDraining;
      var front, last := ids[..|ids| - 1], ids[|ids| - 1];
      assert ids == front + [last];
      assert last !in front;
      BeginAllAccounts(spec, m, s, front, time);
      var s1 := BeginAll(spec, s, front, time);
      StillToBegin(spec, s, s1, front, last, time);
      BeginAccounts(spec, m, s1, last, time);
      BegunOneMore(spec, s, s1, Begin(spec, s1, last, time), front, last, time);
      DisplacesTransitive(s.cluster, s1.cluster, Begin(spec, s1, last, time).cluster);
    }
  }

  /** No drifted ready node escapes: it is gone or draining. */
  ghost predicate NoneEscapes(spec: DriftSpec, s: DriftState) {
    forall n :: s.cluster.HasNode(n) && IsDrifted(spec, s.cluster.Node(n)) && s.cluster.Node(n).ready ==>
      IsDraining(s.draining, n)
  }

  lemma ScanCatchesAll(spec: DriftSpec, s: DriftState, s': DriftState, ids: seq<NodeId>, time: nat)
    requires OnlyDisplaces(s.cluster, s'.cluster) && BegunAll(spec, s, s', ids, time)
    requires forall n :: s.cluster.HasNode(n) && NewlyDrifted(spec, s, n) ==> n in ids
    ensures NoneEscapes(spec, s')
  {
    forall n | s'.cluster.HasNode(n) && IsDrifted(spec, s'.cluster.Node(n)) && s'.cluster.Node(n).ready
      ensures IsDraining(s'.draining, n)
    {
      assert Unloaded(s'.cluster.Node(n)) == Unloaded(s.cluster.Node(n));
      if IsDraining(s.draining, n) {
        var d :| d in s.draining && d.node == n;
        assert d in s'.draining;
      } else {
        assert n in ids;
        assert DriftingNode(n, time + spec.drainTimeout) in s'.draining;
      }
    }
  }

  /** Nothing the scan schedules lies in the past. */
  lemma {:induction false} ContinueNotBefore(m: Cluster, entries: seq<DriftingNode>, time: nat)
    ensures NotBefore(ContinueAll(m, entries, time).followUps, time)
  {
    if entries != [] {
      ContinueNotBefore(m, entries[..|entries| - 1], time);
      hide TryDrain, ForceDrain;
    }
  }

  lemma {:induction false} BeginNotBefore(spec: DriftSpec, s: DriftState, ids: seq<NodeId>, time: nat)
    requires NotBefore(s.followUps, time)
    ensures NotBefore(BeginAll(spec, s, ids, time).followUps, time)
  {
    if ids != [] {
      BeginNotBefore(spec, s, ids[..|ids| - 1], time);
      hide TryDrain, ForceDrain;
    }
  }

  /** The outcome of one scan. */
  ghost predicate ScanOutcome(spec: DriftSpec, m: Cluster, draining: seq<DriftingNode>, time: nat, s: DriftState) {
    && Accounts(m, s)
    && (forall d :: d in draining ==> (d in s.draining <==> s.cluster.HasNode(d.node)))
    && (forall d :: d in draining && s.cluster.HasNode(d.node) ==> time < d.deadline)
    && (forall d :: d in s.draining ==> d in draining || d.deadline == time + spec.drainTimeout)
    && NoneEscapes(spec, s)
    && NotBefore(s.followUps, time)
  }

  /** A scan removes every draining node whose deadline has come, and only
      nodes that no pod points to any more; every other drifted ready node is
      left draining, and terminations are reported for exactly the nodes removed. */
  lemma ScanIsSafe(spec: DriftSpec, m: Cluster, draining: seq<DriftingNode>, time: nat)
    requires Inv(m) && Distinct(draining)
    ensures ScanOutcome(spec, m, draining, time, ScanNodes(spec, m, draining, time))
  {
    var s := ContinueAll(m, draining, time);
    ContinueAllAccounts(m, draining, time);
    assert Consistent(s.cluster.nodes) by {
      assert Inv(s.cluster);
    }
    OrderFacts(s.cluster.nodes);
    var ids := Scan(spec, s, Order(s.cluster.nodes));
    ScanMembers(spec, s, Order(s.cluster.nodes));
    hide Inv, OnlyDisplaces, NoDuplicates;
    BeginAllAccounts(spec, m, s, ids, time);
    var s1 := BeginAll(spec, s, ids, time);
    ScanCatchesAll(spec, s, s1, ids, time);
    ContinueNotBefore(m, draining, time);
    BeginNotBefore(spec, s, ids, time);
    ScanEntries(spec, m, draining, time, s, s1, ids);
    hide BeginAll, ContinueAll, BegunAll, IsDrifted;
    RescheduleOutcome(spec, m, draining, time, s1);
  }

  lemma ScanEntries(
    spec: DriftSpec, m: Cluster, draining: seq<DriftingNode>, time: nat, s: DriftState, s': DriftState,
    ids: seq<NodeId>)
    requires BegunAll(spec, s, s', ids, time)
    requires forall n :: n in ids ==> s.cluster.HasNode(n) && !IsDraining(s.draining, n)
    requires forall d :: d in s.draining ==> d in draining
    requires forall d :: d in draining ==> (d in s.draining <==> s.cluster.HasNode(d.node))
    ensures forall d :: d in draining ==> (d in s'.draining <==> s'.cluster.HasNode(d.node))
    ensures forall d :: d in s'.draining ==> d in draining || d.deadline == time + spec.drainTimeout
  {
  }

  lemma RescheduleOutcome(spec: DriftSpec, m: Cluster, draining: seq<DriftingNode>, time: nat, s: DriftState)
    requires ScanOutcome(spec, m, draining, time, s)
    ensures ScanOutcome(spec, m, draining, time, Reschedule(spec, s, time))
  {
    hide OnlyDisplaces, IsDrifted;
    TerminatedAppend(s.followUps, At(time + 3, ProvisioningLoop));
    TerminatedAppend(s.followUps + (if s.followUps != [] then [At(time + 3, ProvisioningLoop)] else []),
                     At(time + spec.scanInterval, ConsolidationLoop));
  }

  /** Drift replacement orphans no pod: every pod of a node that the scan
      removes is Pending and queued afterwards. */
  lemma ScanOrphansNobody(spec: DriftSpec, m: Cluster, draining: seq<DriftingNode>, time: nat, n: NodeId, p: PodId)
    requires Inv(m) && Distinct(draining)
    requires m.RunsOn(p, n) && m.HasNode(n) && !ScanNodes(spec, m, draining, time).cluster.HasNode(n)
    ensures var m' := ScanNodes(spec, m, draining, time).cluster;
            m'.HasPod(p) && m'.Pod(p) == Unplaced(m.Pod(p)) && p in m'.pending
  {
    ScanIsSafe(spec, m, draining, time);
    var m' := ScanNodes(spec, m, draining, time).cluster;
    hide ScanNodes;
    assert Vacated(m', n) && !m'.RunsOn(p, n);
    assert QueueAgrees(m');
  }

  // ----- The handler object -----

  method CollectReleased(state: ClusterState, ids: seq<PodId>) returns (released: seq<PodId>)
    requires state.Valid()
    ensures released == Released(state.Model(), ids)
  {
    hide Arena.Valid, AllowsEviction;
    ghost var m := state.Model();
    released := [];
    for i := 0 to |ids|
      invariant state.Model() == m
      invariant released == Released(m, ids[..i])
    {
      assert ids[..i + 1][..i] == ids[..i];
      var pod := state.pods.Find(ids[i]);
      if pod.Some? && pod.value.phase == Running {
        var allowed := CheckEviction(state, pod.value);
        if allowed {
          released := released + [ids[i]];
        }
      }
    }
    assert ids[..|ids|] == ids;
  }

  /** Evict what the budgets allow; tell whether the node is now empty or gone. */
  method TryToDrain(state: ClusterState, n: NodeId) returns (empty: bool)
    requires state.Valid()
    modifies state, state.nodes, state.pods
    ensures state.Valid() && state.Model() == TryDrain(old(state.Model()), n)
    ensures empty == Drained(state.Model(), n)
  {
    hide Arena.Valid, Released, EvictAll;
    var node := state.nodes.Find(n);
    if node.None? || node.value.pods == [] {
      EvictNone(state.Model());
      return true;
    }
    var released := CollectReleased(state, node.value.pods);
    EvictEach(state, released);
    var left := state.nodes.Find(n);
    empty := left.None? || left.value.pods == [];
  }

  lemma EvictNone(m: Cluster)
    ensures EvictAll(m, Released(m, [])) == m
  {
  }

  method ForceToDrain(state: ClusterState, n: NodeId)
    requires state.Valid()
    modifies state, state.nodes, state.pods
    ensures state.Valid() && state.Model() == ForceDrain(old(state.Model()), n)
  {
    hide Arena.Valid, EvictAll;
    var node := state.nodes.Find(n);
    if node.Some? {
      EvictEach(state, node.value.pods);
    }
  }

  /** One entry of the first phase; `keep` says whether it stays in the list. */
  method ContinueDrain(state: ClusterState, entry: DriftingNode, time: nat, ghost s: DriftState)
    returns (keep: bool, followUps: seq<ScheduledEvent>)
    requires state.Valid() && state.Model() == s.cluster
    modifies state, state.nodes, state.pods
    ensures state.Valid()
    ensures Continue(s, entry, time) ==
            DriftState(state.Model(), s.draining + (if keep then [entry] else []), s.followUps + followUps)
  {
    hide Arena.Valid, ForceDrain, TryDrain, Drained;
    var node := state.nodes.Find(entry.node);
    if node.None? {
      return false, [];
    }
    var empty := true;
    if time >= entry.deadline {
      ForceToDrain(state, entry.node);
    } else {
      empty := TryToDrain(state, entry.node);
    }
    if !empty {
      return true, [];
    }
    var _ := state.RemoveNode(entry.node);
    return false, [At(time + 1, NodeTerminated(entry.node))];
  }

  method ContinueDrains(state: ClusterState, entries: seq<DriftingNode>, time: nat)
    returns (stillDraining: seq<DriftingNode>, followUps: seq<ScheduledEvent>)
    requires state.Valid()
    modifies state, state.nodes, state.pods
    ensures state.Valid()
    ensures ContinueAll(old(state.Model()), entries, time) == DriftState(state.Model(), stillDraining, followUps)
  {
    hide Arena.Valid, Continue;
    stillDraining, followUps := [], [];
    for i := 0 to |entries|
      invariant state.Valid()
      invariant ContinueAll(old(state.Model()), entries[..i], time) ==
                DriftState(state.Model(), stillDraining, followUps)
    {
      assert entries[..i + 1][..i] == entries[..i];
      var keep, more := ContinueDrain(state, entries[i], time, DriftState(state.Model(), stillDraining, followUps));
      followUps := followUps + more;
      if keep {
        stillDraining := stillDraining + [entries[i]];
      }
    }
    assert entries[..|entries|] == entries;
  }

  method FindDrifted(spec: DriftSpec, state: ClusterState, draining: seq<DriftingNode>, ghost s: DriftState)
    returns (ids: seq<NodeId>)
    requires state.Valid() && state.Model() == s.cluster && draining == s.draining
    ensures ids == Scan(spec, s, Order(state.Model().nodes))
  {
    hide Arena.Valid, IsDrifted, IsDraining;
    ids := [];
    var all := state.nodes.Handles();
    for i := 0 to |all|
      invariant state.Model() == s.cluster
      invariant ids == Scan(spec, s, all[..i])
    {
      assert all[..i + 1][..i] == all[..i];
      var node := state.nodes.Find(all[i]);
      if node.Some? && IsDrifted(spec, node.value) && node.value.ready && !IsDraining(draining, all[i]) {
        ids := ids + [all[i]];
      }
    }
    assert all[..|all|] == all;
  }

  /** One node of the second phase. */
  method BeginDrain(spec: DriftSpec, state: ClusterState, n: NodeId, time: nat, ghost s: DriftState)
    returns (draining: seq<DriftingNode>, followUps: seq<ScheduledEvent>)
    requires state.Valid() && state.Model() == s.cluster
    modifies state, state.nodes, state.pods
    ensures state.Valid()
    ensures Begin(spec, s, n, time) == DriftState(state.Model(), s.draining + draining, s.followUps + followUps)
  {
    hide Arena.Valid, TryDrain, Drained;
    followUps := [At(time + 1, NodeCordoned(n))];
    var empty := TryToDrain(state, n);
    if empty {
      var _ := state.RemoveNode(n);
      draining, followUps := [], followUps + [At(time + 2, NodeTerminated(n))];
    } else {
      draining := [DriftingNode(n, time + spec.drainTimeout)];
    }
  }

  class DriftHandler {
    const spec: DriftSpec
    var draining: seq<DriftingNode>

    constructor (spec: DriftSpec)
      ensures this.spec == spec && draining == []
    {
      this.spec, draining := spec, [];
    }

    method BeginDrains(state: ClusterState, ids: seq<NodeId>, time: nat, followUps: seq<ScheduledEvent>)
      returns (all: seq<ScheduledEvent>)
      requires state.Valid()
      modifies this, state, state.nodes, state.pods
      ensures state.Valid()
      ensures BeginAll(spec, old(DriftState(state.Model(), draining, followUps)), ids, time) ==
              DriftState(state.Model(), draining, all)
    {
      hide Arena.Valid, Begin;
      all := followUps;
      ghost var s := DriftState(state.Model(), draining, followUps);
      for i := 0 to |ids|
        invariant state.Valid()
        invariant BeginAll(spec, s, ids[..i], time) == DriftState(state.Model(), draining, all)
      {
        assert ids[..i + 1][..i] == ids[..i];
        var entries, more := BeginDrain(spec, state, ids[i], time, DriftState(state.Model(), draining, all));
        draining, all := draining + entries, all + more;
      }
      assert ids[..|ids|] == ids;
    }

    method Handle(event: Event, time: nat, state: ClusterState) returns (followUps: seq<ScheduledEvent>)
      requires state.Valid()
      modifies this, state, state.nodes, state.pods
      ensures state.Valid()
      ensures !event.ConsolidationLoop? ==>
                state.Model() == old(state.Model()) && draining == old(draining) && followUps == []
      ensures event.ConsolidationLoop? ==>
                ScanNodes(spec, old(state.Model()), old(draining), time) ==
                  DriftState(state.Model(), draining, followUps)
    {
      hide Arena.Valid, ContinueAll, BeginAll, Scan, Order;
      if !event.ConsolidationLoop? {
        return [];
      }
      draining, followUps := ContinueDrains(state, draining, time);
      var drifted := FindDrifted(spec, state, draining, DriftState(state.Model(), draining, followUps));
      followUps := BeginDrains(state, drifted, time, followUps);
      if followUps != [] {
        followUps := followUps + [At(time + 3, ProvisioningLoop)];
      }
      followUps := followUps + [At(time + spec.scanInterval, ConsolidationLoop)];
    }
  }

  // ----- Whole runs -----

  datatype World = World(cluster: Cluster, draining: seq<DriftingNode>)

  /** The handler as the engine calls it. */
  function OnEvent(spec: DriftSpec): Handler<World> {
    (event: Event, time: nat, w: World) =>
      if event.ConsolidationLoop? then
        var s := ScanNodes(spec, w.cluster, w.draining, time);
        Reaction(World(s.cluster, s.draining), s.followUps)
      else Reaction(w, [])
  }

  /** Handlers that keep the accounting and leave the drift list alone. */
  ghost predicate Respectful(handlers: seq<Handler<World>>) {
    forall i, event, time, w :: 0 <= i < |handlers| ==> Respects(w, handlers[i](event, time, w).world)
  }

  ghost predicate Respects(w: World, w': World) {
    && w'.draining == w.draining
    && (Inv(w.cluster) ==> Inv(w'.cluster) && StaleStay(w.cluster, w'.cluster))
  }

  ghost predicate Healthy(w: World) {
    Inv(w.cluster) && Distinct(w.draining) && forall d :: d in w.draining ==> Issued(w.cluster.nodes, d.node)
  }

  /** The node was there and is not any more. */
  ghost predicate Gone(w: World, n: NodeId) {
    Issued(w.cluster.nodes, n) && !w.cluster.HasNode(n)
  }

  /** A step may finish a drain but never forgets it, and nothing brings a node back. */
  ghost predicate Progress(w: World, w': World) {
    && Healthy(w')
    && (forall d :: d in w.draining ==> d in w'.draining || Gone(w', d.node))
    && (forall n :: Gone(w, n) ==> Gone(w', n))
  }

  lemma {:induction false} RespectfulProgress(handlers: seq<Handler<World>>, event: Event, time: nat, w: World)
    requires Respectful(handlers) && Healthy(w)
    ensures Progress(w, React(handlers, event, time, w).world)
  {
    if handlers != [] {
      var front := handlers[..|handlers| - 1];
      assert forall i :: 0 <= i < |front| ==> front[i] == handlers[i];
      RespectfulProgress(front, event, time, w);
      var r := React(front, event, time, w);
      assert Respects(r.world, handlers[|handlers| - 1](event, time, r.world).world);
      hide Inv, Issued;
    }
  }

  lemma ScanProgress(spec: DriftSpec, time: nat, w: World)
    requires Healthy(w)
    ensures var s := ScanNodes(spec, w.cluster, w.draining, time);
            && Progress(w, World(s.cluster, s.draining))
            && (forall d :: d in w.draining && d.deadline <= time ==> Gone(World(s.cluster, s.draining), d.node))
  {
    ScanIsSafe(spec, w.cluster, w.draining, time);
    var s := ScanNodes(spec, w.cluster, w.draining, time);
    hide ScanNodes, NoneEscapes, TerminatedIn;
    forall d | d in s.draining
      ensures Issued(s.cluster.nodes, d.node)
    {
      LiveIsIssued(s.cluster.nodes, d.node);
    }
  }

  lemma ProgressTransitive(a: World, b: World, c: World)
    requires Progress(a, b) && Progress(b, c)
    ensures Progress(a, c)
  {
    hide Healthy, Gone;
  }

  /** An engine that runs the drift handler among respectful ones. */
  function WithDrift(before: seq<Handler<World>>, spec: DriftSpec, after: seq<Handler<World>>): seq<Handler<World>> {
    before + [OnEvent(spec)] + after
  }

  lemma StepProgress(
    before: seq<Handler<World>>, spec: DriftSpec, after: seq<Handler<World>>, event: Event, time: nat, w: World)
    requires Respectful(before) && Respectful(after) && Healthy(w)
    ensures var w' := React(WithDrift(before, spec, after), event, time, w).world;
            && Progress(w, w')
            && (event.ConsolidationLoop? ==> forall d :: d in w.draining && d.deadline <= time ==> Gone(w', d.node))
  {
    hide Healthy, Gone, Respectful, Inv;
    ReactAppend(before + [OnEvent(spec)], after, event, time, w);
    ReactAppend(before, [OnEvent(spec)], event, time, w);
    var w1 := React(before, event, time, w).world;
    var w2 := React([OnEvent(spec)], event, time, w1).world;
    var w3 := React(after, event, time, w2).world;
    RespectfulProgress(before, event, time, w);
    assert w2 == OnEvent(spec)(event, time, w1).world by {
      assert [OnEvent(spec)][..0] == [];
    }
    hide React;
    if event.ConsolidationLoop? {
      ScanProgress(spec, time, w1);
    }
    RespectfulProgress(after, event, time, w2);
    ProgressTransitive(w, w1, w2);
    ProgressTransitive(w, w2, w3);
  }

  /** The k-th event is a scan at or past the deadline. */
  ghost predicate DueAt(run: Run<World>, k: nat, d: DriftingNode)
    requires k < |run.events|
  {
    run.events[k].event.ConsolidationLoop? && d.deadline <= run.events[k].time
  }

  lemma RunProgress(before: seq<Handler<World>>, spec: DriftSpec, after: seq<Handler<World>>, run: Run<World>, k: nat)
    requires Respectful(before) && Respectful(after) && IsRun(WithDrift(before, spec, after), run)
    requires k < |run.events| && Healthy(run.states[k].world)
    ensures Progress(run.states[k].world, run.states[k + 1].world)
    ensures forall d :: d in run.states[k].world.draining && DueAt(run, k, d) ==> Gone(run.states[k + 1].world, d.node)
  {
    hide Healthy, Gone, Respectful, WithDrift, React;
    var e, s := run.events[k], run.states[k];
    assert Steps(WithDrift(before, spec, after), s, e, run.states[k + 1]);
    StepProgress(before, spec, after, e.event, e.time, s.world);
  }

  lemma {:induction false} RunHealthy(
    before: seq<Handler<World>>, spec: DriftSpec, after: seq<Handler<World>>, run: Run<World>, j: nat)
    requires Respectful(before) && Respectful(after) && IsRun(WithDrift(before, spec, after), run)
    requires Healthy(run.states[0].world) && j < |run.states|
    ensures Healthy(run.states[j].world)
  {
    hide Healthy, Respectful, WithDrift;
    if j > 0 {
      RunHealthy(before, spec, after, run, j - 1);
      RunProgress(before, spec, after, run, j - 1);
    }
  }

  /** Over every run of the engine: a node that is draining stays so until it
      is gone, and it is gone after any scan at or past its deadline, whatever
      the other handlers do in between. */
  lemma {:induction false} GoneByDeadline(
    before: seq<Handler<World>>, spec: DriftSpec, after: seq<Handler<World>>, run: Run<World>, i: nat, j: nat,
    d: DriftingNode)
    requires Respectful(before) && Respectful(after) && IsRun(WithDrift(before, spec, after), run)
    requires Healthy(run.states[0].world) && i <= j < |run.states| && d in run.states[i].world.draining
    ensures d in run.states[j].world.draining || Gone(run.states[j].world, d.node)
    ensures (exists k :: i <= k < j && DueAt(run, k, d)) ==> Gone(run.states[j].world, d.node)
  {
    hide Healthy, Gone, Respectful, WithDrift, Steps;
    if i < j {
      GoneByDeadline(before, spec, after, run, i, j - 1, d);
      RunHealthy(before, spec, after, run, j - 1);
      RunProgress(before, spec, after, run, j - 1);
      var w := run.states[j - 1].world;
      if k :| i <= k < j && DueAt(run, k, d) {
        if k < j - 1 {
          assert DueAt(run, k, d) && Gone(w, d.node);
        } else if d !in w.draining {
          assert Gone(w, d.node);
        }
      }
    }
  }

  // ----- Deadlines and the clock -----

  lemma ScanNotBefore(spec: DriftSpec, m: Cluster, draining: seq<DriftingNode>, time: nat)
    ensures NotBefore(ScanNodes(spec, m, draining, time).followUps, time)
    ensures At(time + spec.scanInterval, ConsolidationLoop) in ScanNodes(spec, m, draining, time).followUps
  {
    hide ContinueAll, BeginAll, Scan, Order;
    var s := ContinueAll(m, draining, time);
    ContinueNotBefore(m, draining, time);
    BeginNotBefore(spec, s, Scan(spec, s, Order(s.cluster.nodes)), time);
  }

  /** The drift handler never schedules into the past, so an engine that runs it
      among causal handlers is causal. */
  lemma EngineIsCausal(before: seq<Handler<World>>, spec: DriftSpec, after: seq<Handler<World>>)
    requires Causal(before) && Causal(after)
    ensures Causal(WithDrift(before, spec, after))
  {
    var handlers := WithDrift(before, spec, after);
    forall i, event, time, w | 0 <= i < |handlers|
      ensures NotBefore(handlers[i](event, time, w).followUps, time)
    {
      if i < |before| {
        assert handlers[i] == before[i];
      } else if i == |before| {
        ScanNotBefore(spec, w.cluster, w.draining, time);
      } else {
        assert handlers[i] == after[i - |before| - 1];
      }
    }
  }

  /** A scan is scheduled no later than the limit. */
  ghost predicate Polled(s: Simulation<World>, limit: nat) {
    exists e :: e in s.queue && e.event.ConsolidationLoop? && e.time <= limit
  }

  /** A scan schedules the next one. */
  lemma ScanPolls(
    before: seq<Handler<World>>, spec: DriftSpec, after: seq<Handler<World>>,
    s: Simulation<World>, e: ScheduledEvent, s': Simulation<World>)
    requires Steps(WithDrift(before, spec, after), s, e, s') && e.event.ConsolidationLoop?
    ensures Polled(s', e.time + spec.scanInterval)
  {
    ReactAppend(before + [OnEvent(spec)], after, e.event, e.time, s.world);
    ReactAppend(before, [OnEvent(spec)], e.event, e.time, s.world);
    var w := React(before, e.event, e.time, s.world).world;
    ScanNotBefore(spec, w.cluster, w.draining, e.time);
    var next := At(e.time + spec.scanInterval, ConsolidationLoop);
    assert next in React([OnEvent(spec)], e.event, e.time, w).followUps by {
      assert [OnEvent(spec)][..0] == [];
    }
    hide React;
    assert next in React(WithDrift(before, spec, after), e.event, e.time, s.world).followUps;
    assert next in s'.queue;
  }

  /** A scheduled scan stays scheduled until it fires. */
  lemma PollStays(
    handlers: seq<Handler<World>>, s: Simulation<World>, e: ScheduledEvent, s': Simulation<World>, limit: nat)
    requires Steps(handlers, s, e, s') && Polled(s, limit)
    ensures Polled(s', limit) || (e.event.ConsolidationLoop? && e.time <= limit)
  {
    hide React;
    var scan :| scan in s.queue && scan.event.ConsolidationLoop? && scan.time <= limit;
    assert scan == e || scan in s'.queue;
  }

  /** Until the node is gone, a scan is due within one interval of its deadline. */
  lemma {:induction false} PolledUntilGone(
    before: seq<Handler<World>>, spec: DriftSpec, after: seq<Handler<World>>, run: Run<World>, i: nat, j: nat,
    d: DriftingNode)
    requires Respectful(before) && Respectful(after) && IsRun(WithDrift(before, spec, after), run)
    requires Healthy(run.states[0].world) && i <= j < |run.states| && d in run.states[i].world.draining
    requires Polled(run.states[i], d.deadline + spec.scanInterval)
    ensures Polled(run.states[j], d.deadline + spec.scanInterval) || Gone(run.states[j].world, d.node)
  {
    hide Healthy, Gone, Respectful, WithDrift, Polled;
    if i < j {
      PolledUntilGone(before, spec, after, run, i, j - 1, d);
      GoneByDeadline(before, spec, after, run, i, j - 1, d);
      RunHealthy(before, spec, after, run, j - 1);
      RunProgress(before, spec, after, run, j - 1);
      if Polled(run.states[j - 1], d.deadline + spec.scanInterval) {
        NextPoll(before, spec, after, run, j - 1, d);
      }
    }
  }

  lemma NextPoll(
    before: seq<Handler<World>>, spec: DriftSpec, after: seq<Handler<World>>, run: Run<World>, k: nat, d: DriftingNode)
    requires IsRun(WithDrift(before, spec, after), run) && k < |run.events|
    requires Polled(run.states[k], d.deadline + spec.scanInterval)
    ensures Polled(run.states[k + 1], d.deadline + spec.scanInterval) || DueAt(run, k, d)
  {
    var handlers, e := WithDrift(before, spec, after), run.events[k];
    assert Steps(handlers, run.states[k], e, run.states[k + 1]);
    hide Steps, WithDrift;
    PollStays(handlers, run.states[k], e, run.states[k + 1], d.deadline + spec.scanInterval);
    if e.event.ConsolidationLoop? {
      ScanPolls(before, spec, after, run.states[k], e, run.states[k + 1]);
    }
  }

  /** In an engine of causal handlers the clock alone decides: once it has passed
      the deadline by more than one scan interval, the node is gone. */
  lemma GoneOnceOverdue(
    before: seq<Handler<World>>, spec: DriftSpec, after: seq<Handler<World>>, run: Run<World>, i: nat, j: nat,
    d: DriftingNode)
    requires Respectful(before) && Respectful(after) && Causal(before) && Causal(after)
    requires IsRun(WithDrift(before, spec, after), run)
    requires Healthy(run.states[0].world) && NothingOverdue(run.states[0])
    requires i <= j < |run.states| && d in run.states[i].world.draining
    requires Polled(run.states[i], d.deadline + spec.scanInterval)
    requires run.states[j].time > d.deadline + spec.scanInterval
    ensures Gone(run.states[j].world, d.node)
  {
    hide Healthy, Gone, Respectful, WithDrift, Causal, IsRun;
    EngineIsCausal(before, spec, after);
    TimeNeverDecreases(WithDrift(before, spec, after), run, j, j);
    PolledUntilGone(before, spec, after, run, i, j, d);
  }
}
