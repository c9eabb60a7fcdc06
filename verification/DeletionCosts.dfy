/** The deletion cost controller: pods cost what the rank of their node says. */
module DeletionCosts {
  import opened Types
  import opened Sequences
  import opened Arenas
  import opened ClusterModel
  import opened ClusterStates
  import opened ReplicaSets
  import opened Examples

  const DO_NOT_DISRUPT_KEY := "karpenter.sh/do-not-disrupt"
  const BASE_RANK: int := -1000
  const TOP_CANDIDATES: nat := 50

  /** A node with its running pods. */
  datatype NodeGroup = NodeGroup(node: NodeId, pods: seq<PodId>)

  function RunningAmong(m: Cluster, ids: seq<PodId>): seq<PodId> {
    if ids == [] then []
    else
      var p := ids[|ids| - 1];
      RunningAmong(m, ids[..|ids| - 1]) + (if m.HasPod(p) && m.Pod(p).phase == Running then [p] else [])
  }

  function ActiveAmong(m: Cluster, ids: seq<NodeId>): seq<NodeGroup> {
    if ids == [] then []
    else
      var n := ids[|ids| - 1];
      ActiveAmong(m, ids[..|ids| - 1]) +
      (if m.HasNode(n) && m.Node(n).Schedulable() && RunningAmong(m, m.Node(n).pods) != []
       then [NodeGroup(n, RunningAmong(m, m.Node(n).pods))] else [])
  }

  /** Ready, uncordoned nodes that have running pods. */
  function ActiveNodes(m: Cluster): seq<NodeGroup> {
    ActiveAmong(m, Order(m.nodes))
  }

  predicate HasProtectedPod(m: Cluster, g: NodeGroup) {
    exists p | p in g.pods :: m.HasPod(p) && Lookup(m.Pod(p).labels, DO_NOT_DISRUPT_KEY).Some?
  }

  // ----- Tiers and ranking -----

  datatype Tier = Drifted | Normal | Protected

  predicate KeepsNode(m: Cluster, g: NodeGroup) {
    m.HasNode(g.node) && m.Node(g.node).doNotDisrupt
  }

  function TierOf(m: Cluster, strategy: DeletionCostStrategy, g: NodeGroup): Tier {
    if HasProtectedPod(m, g) then Protected
    else if strategy.PodDeletionCostController? && KeepsNode(m, g) then Protected
    else if strategy.PodDeletionCostController? && m.HasNode(g.node) && m.Node(g.node).cordoned then Drifted
    else Normal
  }

  function InTier(m: Cluster, strategy: DeletionCostStrategy, groups: seq<NodeGroup>, tier: Tier): seq<NodeGroup> {
    if groups == [] then []
    else
      var g := groups[|groups| - 1];
      InTier(m, strategy, groups[..|groups| - 1], tier) + (if TierOf(m, strategy, g) == tier then [g] else [])
  }

  /** Unallocated CPU per running pod. */
  function UnallocatedPerPod(m: Cluster, g: NodeGroup): nat {
    if m.HasNode(g.node) then
      MonusNat(m.Node(g.node).allocatable.cpu, m.Node(g.node).used.cpu) / (if g.pods == [] then 1 else |g.pods|)
    else 0
  }

  /** Nodes with smaller keys come first. */
  function RankKey(m: Cluster, strategy: DeletionCostStrategy, g: NodeGroup): int {
    match strategy
    case NoStrategy => 0
    case RandomOrder => g.node.index
    case PreferEmptyingNodes => |g.pods|
    case PodDeletionCostController => |g.pods|
    case LargestFirst => if m.HasNode(g.node) then 0 - m.Node(g.node).allocatable.cpu else 0
    case UnallocatedVcpu => 0 - UnallocatedPerPod(m, g)
  }

  function ByRankKey(m: Cluster, strategy: DeletionCostStrategy): (NodeGroup, NodeGroup) -> bool {
    (a: NodeGroup, b: NodeGroup) => RankKey(m, strategy, a) <= RankKey(m, strategy, b)
  }

  function RankedTier(m: Cluster, strategy: DeletionCostStrategy, tier: Tier): seq<NodeGroup> {
    StableSort(InTier(m, strategy, ActiveNodes(m), tier), ByRankKey(m, strategy))
  }

  /** The nodes that get a rank, lowest cost first. */
  function Ranking(m: Cluster, strategy: DeletionCostStrategy): seq<NodeGroup> {
    if strategy.PodDeletionCostController? then
      Take(RankedTier(m, strategy, Drifted) + RankedTier(m, strategy, Normal) + RankedTier(m, strategy, Protected),
           TOP_CANDIDATES)
    else
      RankedTier(m, strategy, Normal) + InTier(m, strategy, ActiveNodes(m), Protected)
  }

  // ----- Writing the costs -----

  function AssignCost(m: Cluster, ids: seq<PodId>, cost: int): Cluster {
    if ids == [] then m else SetDeletionCost(AssignCost(m, ids[..|ids| - 1], cost), ids[|ids| - 1], cost)
  }

  /** Every pod of the k-th group costs `base + k`. */
  function AssignRanks(m: Cluster, groups: seq<NodeGroup>, base: int): Cluster {
    if groups == [] then m
    else
      var k := |groups| - 1;
      AssignCost(AssignRanks(m, groups[..k], base), groups[k].pods, base + k)
  }

  /** One pass of the controller. */
  function CostPass(m: Cluster, strategy: DeletionCostStrategy): Cluster {
    if strategy.NoStrategy? then m else AssignRanks(m, Ranking(m, strategy), BASE_RANK)
  }

  // ----- The groups -----

  lemma {:induction false} RunningAmongMembers(m: Cluster, ids: seq<PodId>)
    ensures forall p :: p in RunningAmong(m, ids) <==> p in ids && m.HasPod(p) && m.Pod(p).phase == Running
  {
    if ids != [] {
      RunningAmongMembers(m, ids[..|ids| - 1]);
      assert ids == ids[..|ids| - 1] + [ids[|ids| - 1]];
    }
  }

  /** The group lists exactly the pods that run on its node. */
  ghost predicate IsGroup(m: Cluster, g: NodeGroup) {
    && m.HasNode(g.node) && m.Node(g.node).Schedulable() && g.pods != []
    && g.pods == RunningAmong(m, m.Node(g.node).pods)
  }

  lemma GroupMembers(m: Cluster, g: NodeGroup)
    requires Inv(m) && IsGroup(m, g)
    ensures forall p :: p in g.pods <==> m.RunsOn(p, g.node)
  {
    RunningAmongMembers(m, m.Node(g.node).pods);
    assert NodeAgrees(m, g.node);
    forall p
      ensures p in g.pods <==> m.RunsOn(p, g.node)
    {
      if m.HasPod(p) {
        assert PodAgrees(m, p);
      }
    }
  }

  lemma {:induction false} ActiveAmongFacts(m: Cluster, ids: seq<NodeId>)
    requires NoDuplicates(ids)
    ensures forall g :: g in ActiveAmong(m, ids) <==> g.node in ids && IsGroup(m, g)
    ensures NoDuplicates(ActiveAmong(m, ids))
  {
    hide RunningAmong;
    if ids != [] {
      var front, last := ids[..|ids| - 1], ids[|ids| - 1];
      assert ids == front + [last];
      assert last !in front;
      ActiveAmongFacts(m, front);
    }
  }

  lemma {:induction false} InTierFacts(m: Cluster, strategy: DeletionCostStrategy, groups: seq<NodeGroup>, tier: Tier)
    ensures forall g :: g in InTier(m, strategy, groups, tier) <==> g in groups && TierOf(m, strategy, g) == tier
    ensures NoDuplicates(groups) ==> NoDuplicates(InTier(m, strategy, groups, tier))
  {
    hide TierOf;
    if groups != [] {
      var front, last := groups[..|groups| - 1], groups[|groups| - 1];
      InTierFacts(m, strategy, front, tier);
      assert groups == front + [last];
      assert NoDuplicates(groups) ==> last !in front;
    }
  }

  lemma RankedTierFacts(m: Cluster, strategy: DeletionCostStrategy, tier: Tier)
    requires NoDuplicates(ActiveNodes(m))
    ensures var ranked := RankedTier(m, strategy, tier);
            && NoDuplicates(ranked) && |ranked| == |InTier(m, strategy, ActiveNodes(m), tier)|
            && (forall g :: g in ranked <==> g in ActiveNodes(m) && TierOf(m, strategy, g) == tier)
  {
    var unranked := InTier(m, strategy, ActiveNodes(m), tier);
    InTierFacts(m, strategy, ActiveNodes(m), tier);
    StableSortPermutes(unranked, ByRankKey(m, strategy));
    PermutationFacts(RankedTier(m, strategy, tier), unranked);
    hide TierOf, ActiveNodes, StableSort;
  }

  lemma {:induction false} TiersPartition(m: Cluster, strategy: DeletionCostStrategy, groups: seq<NodeGroup>)
    ensures |groups| == |InTier(m, strategy, groups, Drifted)| + |InTier(m, strategy, groups, Normal)| +
                        |InTier(m, strategy, groups, Protected)|
  {
    hide TierOf;
    if groups != [] {
      TiersPartition(m, strategy, groups[..|groups| - 1]);
    }
  }

  lemma ActiveNodesFacts(m: Cluster)
    requires Inv(m)
    ensures NoDuplicates(ActiveNodes(m)) && forall g :: g in ActiveNodes(m) <==> IsGroup(m, g)
  {
    assert Consistent(m.nodes);
    OrderFacts(m.nodes);
    ActiveAmongFacts(m, Order(m.nodes));
  }

  /** The active nodes are all ranked, unless the top-candidate cut drops some. */
  predicate NoneCut(m: Cluster, strategy: DeletionCostStrategy) {
    strategy.PodDeletionCostController? ==> |ActiveNodes(m)| <= TOP_CANDIDATES
  }

  /** A ranking lists distinct groups of active nodes, and all of them unless some are cut. */
  lemma RankingFacts(m: Cluster, strategy: DeletionCostStrategy)
    requires Inv(m)
    ensures var ranking := Ranking(m, strategy);
            && NoDuplicates(ranking) && (forall g :: g in ranking ==> IsGroup(m, g))
            && (NoneCut(m, strategy) ==> forall g :: IsGroup(m, g) ==> g in ranking)
  {
    ActiveNodesFacts(m);
    hide Inv, IsGroup, ActiveNodes, TierOf;
    RankedTierFacts(m, strategy, Normal);
    if strategy.PodDeletionCostController? {
      CutRankingFacts(m, strategy);
    } else {
      InTierFacts(m, strategy, ActiveNodes(m), Protected);
      hide RankedTier, InTier, NoDuplicates;
      NoDuplicatesConcat(RankedTier(m, strategy, Normal), InTier(m, strategy, ActiveNodes(m), Protected));
      PlainTiers(m, strategy);
    }
  }

  /** Without the three-tier strategy no node is in the drifted tier. */
  lemma PlainTiers(m: Cluster, strategy: DeletionCostStrategy)
    ensures !strategy.PodDeletionCostController? ==>
              forall g :: TierOf(m, strategy, g) == Normal || TierOf(m, strategy, g) == Protected
  {
  }

  lemma CutRankingFacts(m: Cluster, strategy: DeletionCostStrategy)
    requires NoDuplicates(ActiveNodes(m))
    ensures var d, n := RankedTier(m, strategy, Drifted), RankedTier(m, strategy, Normal);
            var p := RankedTier(m, strategy, Protected);
            var ranking := Take(d + n + p, TOP_CANDIDATES);
            && NoDuplicates(ranking) && (forall g :: g in ranking ==> g in ActiveNodes(m))
            && (|ActiveNodes(m)| <= TOP_CANDIDATES ==> forall g :: g in ActiveNodes(m) ==> g in ranking)
  {
    hide ActiveNodes, TierOf;
    RankedTierFacts(m, strategy, Drifted);
    RankedTierFacts(m, strategy, Normal);
    RankedTierFacts(m, strategy, Protected);
    TiersPartition(m, strategy, ActiveNodes(m));
    hide RankedTier, InTier;
    var d, n := RankedTier(m, strategy, Drifted), RankedTier(m, strategy, Normal);
    var p := RankedTier(m, strategy, Protected);
    NoDuplicatesConcat(d, n);
    NoDuplicatesConcat(d + n, p);
    forall g | g in ActiveNodes(m)
      ensures g in d + n + p
    {
      assert TierOf(m, strategy, g).Drifted? || TierOf(m, strategy, g).Normal? || TierOf(m, strategy, g).Protected?;
    }
    var all := d + n + p;
    assert forall g :: g in Take(all, TOP_CANDIDATES) ==> g in all;
  }

  /** Cordoned nodes are not active, so the tier meant for them stays empty. */
  lemma DriftedTierIsEmpty(m: Cluster, strategy: DeletionCostStrategy)
    requires Inv(m)
    ensures RankedTier(m, strategy, Drifted) == []
  {
    var ranked := RankedTier(m, strategy, Drifted);
    assert ranked == [] || ranked[0] in ranked;
    ActiveNodesFacts(m);
    RankedTierFacts(m, strategy, Drifted);
    hide Inv;
    assert forall g :: IsGroup(m, g) ==> !m.Node(g.node).cordoned;
  }

  // ----- The costs after a pass -----

  lemma {:induction false} AssignCostFacts(m: Cluster, ids: seq<PodId>, cost: int)
    ensures SameButCosts(m, AssignCost(m, ids, cost)) && (Inv(m) ==> Inv(AssignCost(m, ids, cost)))
    ensures forall p :: m.HasPod(p) ==>
              AssignCost(m, ids, cost).Pod(p) == if p in ids then m.Pod(p).(deletionCost := Some(cost)) else m.Pod(p)
  {
    hide Inv;
    if ids != [] {
      var front, last := ids[..|ids| - 1], ids[|ids| - 1];
      assert ids == front + [last];
      AssignCostFacts(m, front, cost);
      if Inv(m) {
        SetDeletionCostInv(AssignCost(m, front, cost), last, cost);
      }
    }
  }

  ghost predicate DisjointGroups(groups: seq<NodeGroup>) {
    forall i, j, p :: 0 <= i < j < |groups| && p in groups[i].pods ==> p !in groups[j].pods
  }

  ghost predicate NoGroupHas(groups: seq<NodeGroup>, p: PodId) {
    forall k :: 0 <= k < |groups| ==> p !in groups[k].pods
  }

  lemma SameButCostsTransitive(a: Cluster, b: Cluster, c: Cluster)
    requires SameButCosts(a, b) && SameButCosts(b, c)
    ensures SameButCosts(a, c)
  {
  }

  /** Each pod of a group costs what its group's position says. */
  lemma {:induction false} AssignRanksFacts(m: Cluster, groups: seq<NodeGroup>, base: int)
    requires DisjointGroups(groups)
    ensures var m' := AssignRanks(m, groups, base);
            && SameButCosts(m, m') && (Inv(m) ==> Inv(m'))
            && (forall k, p :: 0 <= k < |groups| && p in groups[k].pods && m.HasPod(p) ==> CostOf(m', p) == base + k)
            && (forall p :: m.HasPod(p) && NoGroupHas(groups, p) ==> m'.Pod(p) == m.Pod(p))
  {
    hide Inv;
    if groups != [] {
      var k := |groups| - 1;
      assert forall i :: 0 <= i < k ==> groups[..k][i] == groups[i];
      AssignRanksFacts(m, groups[..k], base);
      var m1, m' := AssignRanks(m, groups[..k], base), AssignRanks(m, groups, base);
      AssignCostFacts(m1, groups[k].pods, base + k);
      SameButCostsTransitive(m, m1, m');
      SameKeys(m, m1);
      forall i, p | 0 <= i < |groups| && p in groups[i].pods && m.HasPod(p)
        ensures CostOf(m', p) == base + i
      {
        assert m1.HasPod(p);
        if i < k {
          assert groups[..k][i] == groups[i];
          assert CostOf(m1, p) == base + i;
        }
      }
      forall p | m.HasPod(p) && NoGroupHas(groups, p)
        ensures m'.Pod(p) == m.Pod(p)
      {
        assert m1.HasPod(p) && NoGroupHas(groups[..k], p) && p !in groups[k].pods;
      }
    }
  }

  /** The node has a rank: it is active, and not beyond the cut. */
  ghost predicate IsRanked(m: Cluster, strategy: DeletionCostStrategy, n: NodeId) {
    exists k :: 0 <= k < |Ranking(m, strategy)| && Ranking(m, strategy)[k].node == n
  }

  /** After a pass every pod on a ranked node costs its node's rank; all other
      pods cost what they did, and nothing but costs has changed. */
  lemma PassRanksPods(m: Cluster, strategy: DeletionCostStrategy)
    requires Inv(m)
    ensures Inv(CostPass(m, strategy)) && SameButCosts(m, CostPass(m, strategy))
    ensures !strategy.NoStrategy? ==>
              forall k, p :: 0 <= k < |Ranking(m, strategy)| && m.RunsOn(p, Ranking(m, strategy)[k].node) ==>
                CostOf(CostPass(m, strategy), p) == BASE_RANK + k
    ensures forall p :: m.HasPod(p) && (m.Pod(p).node.Some? ==> !IsRanked(m, strategy, m.Pod(p).node.value)) ==>
              CostOf(CostPass(m, strategy), p) == CostOf(m, p)
  {
    var ranking := Ranking(m, strategy);
    RankingFacts(m, strategy);
    hide Ranking, Inv, RunningAmong;
    forall g | g in ranking
      ensures forall p :: p in g.pods <==> m.RunsOn(p, g.node)
    {
      GroupMembers(m, g);
    }
    RankedOnce(m, ranking);
    AssignRanksFacts(m, ranking, BASE_RANK);
    hide AssignRanks, IsGroup, CostOf, SameButCosts;
    if !strategy.NoStrategy? {
      forall k, p | 0 <= k < |ranking| && m.RunsOn(p, ranking[k].node)
        ensures CostOf(CostPass(m, strategy), p) == BASE_RANK + k
      {
        assert ranking[k] in ranking && p in ranking[k].pods;
      }
    }
    forall p | m.HasPod(p) && (m.Pod(p).node.Some? ==> !IsRanked(m, strategy, m.Pod(p).node.value))
      ensures CostOf(CostPass(m, strategy), p) == CostOf(m, p)
    {
      UnrankedInNoGroup(m, strategy, p);
      SamePodSameCost(m, CostPass(m, strategy), p);
    }
  }

  lemma UnrankedInNoGroup(m: Cluster, strategy: DeletionCostStrategy, p: PodId)
    requires m.HasPod(p) && (m.Pod(p).node.Some? ==> !IsRanked(m, strategy, m.Pod(p).node.value))
    requires forall g :: g in Ranking(m, strategy) ==> forall q :: q in g.pods <==> m.RunsOn(q, g.node)
    ensures NoGroupHas(Ranking(m, strategy), p)
  {
    hide Ranking;
    var ranking := Ranking(m, strategy);
    forall k | 0 <= k < |ranking|
      ensures p !in ranking[k].pods
    {
      assert ranking[k] in ranking;
    }
  }

  lemma SamePodSameCost(m: Cluster, m': Cluster, p: PodId)
    requires m.HasPod(p) && m'.HasPod(p)
    ensures m'.Pod(p) == m.Pod(p) ==> CostOf(m', p) == CostOf(m, p)
  {
  }

  /** Distinct groups are groups of distinct nodes, and share no pod. */
  lemma RankedOnce(m: Cluster, ranking: seq<NodeGroup>)
    requires NoDuplicates(ranking)
    requires forall g :: g in ranking ==> IsGroup(m, g) && forall p :: p in g.pods <==> m.RunsOn(p, g.node)
    ensures forall i, j :: 0 <= i < j < |ranking| ==> ranking[i].node != ranking[j].node
    ensures DisjointGroups(ranking)
  {
    forall i, j | 0 <= i < j < |ranking|
      ensures ranking[i].node != ranking[j].node
      ensures forall p :: p in ranking[i].pods ==> p !in ranking[j].pods
    {
      assert IsGroup(m, ranking[i]) && IsGroup(m, ranking[j]);
      assert ranking[i] in ranking && ranking[j] in ranking;
    }
  }

  // ----- Together with a ReplicaSet -----

  /** All running pods of the owner are on ready, uncordoned nodes. */
  ghost predicate AllOnActive(m: Cluster, owner: OwnerId) {
    forall p :: IsOf(m, p, owner, Running) ==>
      m.Pod(p).node.Some? && m.HasNode(m.Pod(p).node.value) && m.Node(m.Pod(p).node.value).Schedulable()
  }

  ghost predicate RankIs(m: Cluster, strategy: DeletionCostStrategy, p: PodId, k: nat) {
    k < |Ranking(m, strategy)| && m.RunsOn(p, Ranking(m, strategy)[k].node)
  }

  lemma EveryPodIsRanked(m: Cluster, strategy: DeletionCostStrategy, owner: OwnerId, p: PodId)
    requires Inv(m) && AllOnActive(m, owner) && NoneCut(m, strategy) && IsOf(m, p, owner, Running)
    ensures exists k :: RankIs(m, strategy, p, k)
  {
    var n := m.Pod(p).node.value;
    var g := NodeGroup(n, RunningAmong(m, m.Node(n).pods));
    RunningAmongMembers(m, m.Node(n).pods);
    assert NodeAgrees(m, n) && m.RunsOn(p, n);
    assert p in g.pods;
    RankingFacts(m, strategy);
    hide Inv, Ranking, RunningAmong;
    assert IsGroup(m, g);
    var k :| 0 <= k < |Ranking(m, strategy)| && Ranking(m, strategy)[k] == g;
    assert RankIs(m, strategy, p, k);
  }

  /** What a pass followed by a reconcile of an owner without its own strategy starts from. */
  ghost predicate Composes(m: Cluster, strategy: DeletionCostStrategy, owner: OwnerId) {
    && Inv(m) && !strategy.NoStrategy?
    && FindReplicaSet(m, owner).Some?
    && m.replicaSets.At(FindReplicaSet(m, owner).value).strategy.NoStrategy?
  }

  ghost function AfterBoth(m: Cluster, strategy: DeletionCostStrategy, owner: OwnerId): Cluster
    requires Inv(m)
  {
    PassRanksPods(m, strategy);
    Reconcile(CostPass(m, strategy), owner)
  }

  lemma SameRunning(m: Cluster, m': Cluster, owner: OwnerId, p: PodId)
    requires SameButCosts(m, m')
    ensures IsOf(m', p, owner, Running) <==> IsOf(m, p, owner, Running)
  {
    SameKeys(m, m');
  }

  /** After the pass a deleted pod costs no more than a survivor. */
  lemma DeletedCostLeast(m: Cluster, strategy: DeletionCostStrategy, owner: OwnerId, p: PodId, q: PodId)
    requires Composes(m, strategy, owner)
    requires Deleted(m, AfterBoth(m, strategy, owner), owner, p) && Survives(m, AfterBoth(m, strategy, owner), owner, q)
    ensures CostOf(CostPass(m, strategy), p) <= CostOf(CostPass(m, strategy), q)
  {
    PassRanksPods(m, strategy);
    var m' := CostPass(m, strategy);
    SameRunning(m, m', owner, p);
    SameRunning(m, m', owner, q);
    SameReplicaSets(m, m', Order(m.replicaSets), owner);
    hide Inv, CostPass, Ranking, SameButCosts, CostOf;
    ReconcileConverges(m', owner);
    var rs := m.replicaSets.At(FindReplicaSet(m, owner).value);
    hide Reconcile, OnlyReplicasChange, FindReplicaSet;
    assert p in Victims(m', rs) && q !in Victims(m', rs);
    hide Victims, Converged;
    VictimsComeFirst(m', rs, p, q);
  }

  /** A deleted pod's node ranks no later than a survivor's. */
  lemma DeletedRankFirst(m: Cluster, strategy: DeletionCostStrategy, owner: OwnerId, p: PodId, i: nat, q: PodId, j: nat)
    requires Composes(m, strategy, owner)
    requires Deleted(m, AfterBoth(m, strategy, owner), owner, p) && RankIs(m, strategy, p, i)
    requires Survives(m, AfterBoth(m, strategy, owner), owner, q) && RankIs(m, strategy, q, j)
    ensures i <= j
  {
    hide AfterBoth, Inv, CostPass, CostOf, Ranking;
    DeletedCostLeast(m, strategy, owner, p, q);
    PassRanksPods(m, strategy);
  }

  /** Scale-down empties nodes in rank order: when a pod of the owner is
      deleted from a node, its pods on all nodes ranked before are deleted too. */
  lemma NodesEmptyInRankOrder(
    m: Cluster, strategy: DeletionCostStrategy, owner: OwnerId, p: PodId, i: nat, q: PodId, j: nat)
    requires Composes(m, strategy, owner)
    requires Deleted(m, AfterBoth(m, strategy, owner), owner, p) && RankIs(m, strategy, p, i)
    requires IsOf(m, q, owner, Running) && RankIs(m, strategy, q, j) && j < i
    ensures Deleted(m, AfterBoth(m, strategy, owner), owner, q)
  {
    hide AfterBoth, RankIs, Inv;
    if Survives(m, AfterBoth(m, strategy, owner), owner, q) {
      DeletedRankFirst(m, strategy, owner, p, i, q, j);
    }
  }

  // ----- Exactly which nodes can be left partly emptied -----

  /** The rank of the pod's node, or the old cost without one. */
  ghost function CostAfterPass(m: Cluster, strategy: DeletionCostStrategy, p: PodId): int {
    if k: nat :| RankIs(m, strategy, p, k) then BASE_RANK + k else CostOf(m, p)
  }

  /** The pod is deleted before the other: by cost after the pass, then by
      co-located replicas, then by age. */
  ghost predicate PassedBefore(m: Cluster, strategy: DeletionCostStrategy, owner: OwnerId, p: PodId, q: PodId) {
    var a, b := CostAfterPass(m, strategy, p), CostAfterPass(m, strategy, q);
    var c, d := ColocatedAt(m, p, owner), ColocatedAt(m, q, owner);
    p != q && (a < b || (a == b && (c > d || (c == d && p.index >= q.index))))
  }

  lemma CostAfterPassIs(m: Cluster, strategy: DeletionCostStrategy, p: PodId)
    requires Inv(m) && !strategy.NoStrategy? && m.HasPod(p)
    ensures CostOf(CostPass(m, strategy), p) == CostAfterPass(m, strategy, p)
  {
    hide Inv, CostPass, CostOf, Ranking;
    PassRanksPods(m, strategy);
    if m.Pod(p).node.Some? && IsRanked(m, strategy, m.Pod(p).node.value) {
      var k: nat :| k < |Ranking(m, strategy)| && Ranking(m, strategy)[k].node == m.Pod(p).node.value;
      assert RankIs(m, strategy, p, k);
    }
  }

  lemma SameButCostsPlaces(m: Cluster, m': Cluster)
    requires SameButCosts(m, m')
    ensures SamePlaces(m, m')
  {
    SameKeys(m, m');
  }

  lemma PassedBeforeIs(m: Cluster, strategy: DeletionCostStrategy, owner: OwnerId, p: PodId, q: PodId)
    requires Inv(m) && !strategy.NoStrategy? && m.HasPod(p) && m.HasPod(q)
    ensures GoesBefore(CostPass(m, strategy), owner, p, q) <==> PassedBefore(m, strategy, owner, p, q)
  {
    PassRanksPods(m, strategy);
    CostAfterPassIs(m, strategy, p);
    CostAfterPassIs(m, strategy, q);
    hide Inv, CostPass, CostOf, ColocatedAt, CostAfterPass, SameButCosts, SamePlaces;
    SameButCostsPlaces(m, CostPass(m, strategy));
    SameColocated(m, CostPass(m, strategy), p, owner);
    SameColocated(m, CostPass(m, strategy), q, owner);
  }

  lemma PassOwnsAlone(m: Cluster, strategy: DeletionCostStrategy, owner: OwnerId)
    requires Composes(m, strategy, owner)
    ensures OwnsAlone(CostPass(m, strategy), owner)
    ensures CostPass(m, strategy).replicaSets == m.replicaSets
    ensures FindReplicaSet(CostPass(m, strategy), owner) == FindReplicaSet(m, owner)
  {
    hide Inv, CostPass;
    PassRanksPods(m, strategy);
    SameReplicaSets(m, CostPass(m, strategy), Order(m.replicaSets), owner);
  }

  /** After the pass, scaling to this count leaves both nodes partly emptied. */
  ghost predicate PassThenPartly(
    m: Cluster, strategy: DeletionCostStrategy, owner: OwnerId, desired: nat, n1: NodeId, n2: NodeId)
    requires Composes(m, strategy, owner)
  {
    PassOwnsAlone(m, strategy, owner);
    PartlyEmptiesBoth(CostPass(m, strategy), owner, desired, n1, n2)
  }

  /** Running pods of the owner on the two nodes, the first of either going
      before the second of both. */
  ghost predicate StraddleByRank(
    m: Cluster, strategy: DeletionCostStrategy, owner: OwnerId, n1: NodeId, n2: NodeId,
    p1: PodId, q1: PodId, p2: PodId, q2: PodId)
  {
    && IsOf(m, p1, owner, Running) && m.RunsOn(p1, n1) && IsOf(m, q1, owner, Running) && m.RunsOn(q1, n1)
    && IsOf(m, p2, owner, Running) && m.RunsOn(p2, n2) && IsOf(m, q2, owner, Running) && m.RunsOn(q2, n2)
    && PassedBefore(m, strategy, owner, p1, q1) && PassedBefore(m, strategy, owner, p1, q2)
    && PassedBefore(m, strategy, owner, p2, q1) && PassedBefore(m, strategy, owner, p2, q2)
  }

  lemma StraddleByRankIs(
    m: Cluster, strategy: DeletionCostStrategy, owner: OwnerId, n1: NodeId, n2: NodeId,
    p1: PodId, q1: PodId, p2: PodId, q2: PodId)
    requires Inv(m) && !strategy.NoStrategy?
    ensures Straddle(CostPass(m, strategy), owner, n1, n2, p1, q1, p2, q2) <==>
            StraddleByRank(m, strategy, owner, n1, n2, p1, q1, p2, q2)
  {
    hide Inv, CostPass, GoesBefore, PassedBefore;
    PassRanksPods(m, strategy);
    var m' := CostPass(m, strategy);
    SameButCostsPlaces(m, m');
    forall p | p == p1 || p == q1 || p == p2 || p == q2
      ensures m'.HasPod(p) <==> m.HasPod(p)
      ensures IsOf(m', p, owner, Running) <==> IsOf(m, p, owner, Running)
      ensures m'.RunsOn(p, n1) <==> m.RunsOn(p, n1)
      ensures m'.RunsOn(p, n2) <==> m.RunsOn(p, n2)
    {
      assert m.HasPod(p) ==> Uncosted(m'.Pod(p)) == Uncosted(m.Pod(p));
    }
    hide IsOf, SameButCosts;
    if m.HasPod(p1) && m.HasPod(q1) && m.HasPod(p2) && m.HasPod(q2) {
      PassedBeforeIs(m, strategy, owner, p1, q1);
      PassedBeforeIs(m, strategy, owner, p1, q2);
      PassedBeforeIs(m, strategy, owner, p2, q1);
      PassedBeforeIs(m, strategy, owner, p2, q2);
    }
  }

  /** After a pass, some desired count leaves both nodes partly emptied exactly
      when the owner has running pods on them of which one on each goes before
      one on each, by the costs that the ranks, or the old costs, give them. */
  lemma PartlyEmptiedExactly(m: Cluster, strategy: DeletionCostStrategy, owner: OwnerId, n1: NodeId, n2: NodeId)
    requires Composes(m, strategy, owner)
    ensures (exists desired: nat :: PassThenPartly(m, strategy, owner, desired, n1, n2)) <==>
            (exists p1, q1, p2, q2 :: StraddleByRank(m, strategy, owner, n1, n2, p1, q1, p2, q2))
  {
    hide Composes, PassThenPartly, StraddleByRank, Inv;
    if desired: nat :| PassThenPartly(m, strategy, owner, desired, n1, n2) {
      PassThenStraddle(m, strategy, owner, desired, n1, n2);
    }
    if p1, q1, p2, q2 :| StraddleByRank(m, strategy, owner, n1, n2, p1, q1, p2, q2) {
      StraddleThenPass(m, strategy, owner, n1, n2, p1, q1, p2, q2);
    }
  }

  lemma PassThenStraddle(
    m: Cluster, strategy: DeletionCostStrategy, owner: OwnerId, desired: nat, n1: NodeId, n2: NodeId)
    requires Composes(m, strategy, owner) && PassThenPartly(m, strategy, owner, desired, n1, n2)
    ensures exists p1, q1, p2, q2 :: StraddleByRank(m, strategy, owner, n1, n2, p1, q1, p2, q2)
  {
    hide CostPass, OwnsAlone, PartlyEmptiesBoth, Straddle, StraddleByRank, Inv, FindReplicaSet;
    PassOwnsAlone(m, strategy, owner);
    var m' := CostPass(m, strategy);
    assert PartlyEmptiesBoth(m', owner, desired, n1, n2);
    TwoPartlyEmptiedExactly(m', owner, n1, n2);
    var p1, q1, p2, q2 :| Straddle(m', owner, n1, n2, p1, q1, p2, q2);
    StraddleByRankIs(m, strategy, owner, n1, n2, p1, q1, p2, q2);
  }

  lemma StraddleThenPass(
    m: Cluster, strategy: DeletionCostStrategy, owner: OwnerId, n1: NodeId, n2: NodeId,
    p1: PodId, q1: PodId, p2: PodId, q2: PodId)
    requires Composes(m, strategy, owner) && StraddleByRank(m, strategy, owner, n1, n2, p1, q1, p2, q2)
    ensures exists desired: nat :: PassThenPartly(m, strategy, owner, desired, n1, n2)
  {
    hide CostPass, OwnsAlone, PartlyEmptiesBoth, Straddle, StraddleByRank, Inv, FindReplicaSet;
    PassOwnsAlone(m, strategy, owner);
    var m' := CostPass(m, strategy);
    StraddleByRankIs(m, strategy, owner, n1, n2, p1, q1, p2, q2);
    TwoPartlyEmptiedExactly(m', owner, n1, n2);
    var desired: nat :| PartlyEmptiesBoth(m', owner, desired, n1, n2);
    assert PassThenPartly(m, strategy, owner, desired, n1, n2);
  }

  /** What a reconcile leaves now is what scaling to the present count leaves. */
  lemma AfterBothScales(m: Cluster, strategy: DeletionCostStrategy, owner: OwnerId, n1: NodeId, n2: NodeId)
    requires Composes(m, strategy, owner)
    requires PartlyEmptied(m, AfterBoth(m, strategy, owner), owner, n1)
    requires PartlyEmptied(m, AfterBoth(m, strategy, owner), owner, n2)
    ensures exists desired: nat :: PassThenPartly(m, strategy, owner, desired, n1, n2)
  {
    PassOwnsAlone(m, strategy, owner);
    PassRanksPods(m, strategy);
    hide CostPass, Inv, Reconcile, FindReplicaSet;
    var m' := CostPass(m, strategy);
    var rs := m.replicaSets.At(FindReplicaSet(m, owner).value);
    assert Scaled(m', owner, rs.desiredReplicas) == m';
    assert ScaleTo(m', owner, rs.desiredReplicas) == AfterBoth(m, strategy, owner);
    hide ScaleTo, AfterBoth, OwnsAlone;
    SamePartlyEmptied(m, m', AfterBoth(m, strategy, owner), owner, n1);
    SamePartlyEmptied(m, m', AfterBoth(m, strategy, owner), owner, n2);
    assert PassThenPartly(m, strategy, owner, rs.desiredReplicas, n1, n2);
  }

  lemma SamePartlyEmptied(m: Cluster, m': Cluster, after: Cluster, owner: OwnerId, n: NodeId)
    requires SameButCosts(m, m') && PartlyEmptied(m, after, owner, n)
    ensures PartlyEmptied(m', after, owner, n)
  {
    SameButCostsPlaces(m, m');
    var p :| Deleted(m, after, owner, p) && m.RunsOn(p, n);
    var q :| Survives(m, after, owner, q) && m.RunsOn(q, n);
    assert Uncosted(m'.Pod(p)) == Uncosted(m.Pod(p)) && Uncosted(m'.Pod(q)) == Uncosted(m.Pod(q));
    assert Deleted(m', after, owner, p) && m'.RunsOn(p, n);
    assert Survives(m', after, owner, q) && m'.RunsOn(q, n);
  }

  lemma RankedCost(m: Cluster, strategy: DeletionCostStrategy, p: PodId, k: nat)
    requires Inv(m) && !strategy.NoStrategy? && RankIs(m, strategy, p, k)
    ensures CostAfterPass(m, strategy, p) == BASE_RANK + k
  {
    hide Inv, CostPass, CostOf, Ranking;
    PassRanksPods(m, strategy);
    CostAfterPassIs(m, strategy, p);
  }

  /** At most one ranked node is left with some but not all of the owner's pods deleted. */
  lemma AtMostOneRankedPartlyEmptied(m: Cluster, strategy: DeletionCostStrategy, owner: OwnerId, n1: NodeId, n2: NodeId)
    requires Composes(m, strategy, owner) && IsRanked(m, strategy, n1) && IsRanked(m, strategy, n2)
    requires PartlyEmptied(m, AfterBoth(m, strategy, owner), owner, n1)
    requires PartlyEmptied(m, AfterBoth(m, strategy, owner), owner, n2)
    ensures n1 == n2
  {
    hide AfterBoth, PartlyEmptied, PassThenPartly, Ranking, Inv, CostAfterPass, ColocatedAt, FindReplicaSet;
    AfterBothScales(m, strategy, owner, n1, n2);
    PartlyEmptiedExactly(m, strategy, owner, n1, n2);
    var p1, q1, p2, q2 :| StraddleByRank(m, strategy, owner, n1, n2, p1, q1, p2, q2);
    var i1: nat :| i1 < |Ranking(m, strategy)| && Ranking(m, strategy)[i1].node == n1;
    var i2: nat :| i2 < |Ranking(m, strategy)| && Ranking(m, strategy)[i2].node == n2;
    RankedCost(m, strategy, p1, i1);
    RankedCost(m, strategy, q1, i1);
    RankedCost(m, strategy, p2, i2);
    RankedCost(m, strategy, q2, i2);
  }

  /** So when every running pod of the owner is on an active node, and none is
      cut, at most one node of all is left partly emptied. */
  lemma AtMostOnePartlyEmptied(m: Cluster, strategy: DeletionCostStrategy, owner: OwnerId, n1: NodeId, n2: NodeId)
    requires Composes(m, strategy, owner) && AllOnActive(m, owner) && NoneCut(m, strategy)
    requires PartlyEmptied(m, AfterBoth(m, strategy, owner), owner, n1)
    requires PartlyEmptied(m, AfterBoth(m, strategy, owner), owner, n2)
    ensures n1 == n2
  {
    hide AfterBoth, AllOnActive, NoneCut, Ranking, Inv;
    var m' := AfterBoth(m, strategy, owner);
    forall n | PartlyEmptied(m, m', owner, n)
      ensures IsRanked(m, strategy, n)
    {
      var p :| Deleted(m, m', owner, p) && m.RunsOn(p, n);
      EveryPodIsRanked(m, strategy, owner, p);
    }
    AtMostOneRankedPartlyEmptied(m, strategy, owner, n1, n2);
  }

  // ----- Beyond the cut -----

  /** A pod without a rank is deleted before a ranked one exactly as its old
      cost says: a larger cost is deleted later, a smaller one earlier. */
  lemma UnrankedByOldCost(m: Cluster, strategy: DeletionCostStrategy, owner: OwnerId, p: PodId, i: nat, q: PodId)
    requires Composes(m, strategy, owner) && IsOf(m, p, owner, Running) && IsOf(m, q, owner, Running)
    requires RankIs(m, strategy, p, i) && m.Pod(q).node.Some? && !IsRanked(m, strategy, m.Pod(q).node.value)
    ensures var m' := AfterBoth(m, strategy, owner);
            && (CostOf(m, q) > BASE_RANK + i && !m'.HasPod(q) ==> !m'.HasPod(p))
            && (CostOf(m, q) < BASE_RANK + i && !m'.HasPod(p) ==> !m'.HasPod(q))
  {
    hide AfterBoth, Inv, CostPass, CostOf, Ranking;
    var m' := AfterBoth(m, strategy, owner);
    PassRanksPods(m, strategy);
    if !m'.HasPod(q) && m'.HasPod(p) {
      DeletedCostLeast(m, strategy, owner, q, p);
    }
    if !m'.HasPod(p) && m'.HasPod(q) {
      DeletedCostLeast(m, strategy, owner, p, q);
    }
  }

  function CrowdedPod(i: nat): Pod {
    Pod(NO_RESOURCES, Running, Some(Handle(if i < TOP_CANDIDATES + 2 then i else i - 2, 0)),
        Constraints([], [], [], []),
        None, if i < TOP_CANDIDATES then 1 else 2, 0, [], false, false, None)
  }

  function CrowdedNode(i: nat): Node {
    Node("t", NO_RESOURCES, NO_RESOURCES,
         if i < TOP_CANDIDATES then [Handle(i, 0)] else [Handle(i, 0), Handle(i + 2, 0)],
         true, [], [], false, false, 0, "", false)
  }

  const SHRINKING := ReplicaSet(2, 2, PodTemplate(NO_RESOURCES, 0, [], Constraints([], [], [], []), None), NoStrategy)

  function CrowdedNodes(): seq<Node> {
    seq(TOP_CANDIDATES + 2, i requires 0 <= i < TOP_CANDIDATES + 2 => CrowdedNode(i))
  }

  function CrowdedPods(): seq<Pod> {
    seq(TOP_CANDIDATES + 4, i requires 0 <= i < TOP_CANDIDATES + 4 => CrowdedPod(i))
  }

  /** Fifty nodes with one pod of another owner each, and two nodes with two of
      the four pods of an owner that wants two. */
  function Crowded(): Cluster {
    ClusterOf(CrowdedNodes(), CrowdedPods(), [SHRINKING], [])
  }

  lemma CrowdedNodeLists(n: nat)
    requires n < TOP_CANDIDATES + 2
    ensures NodeLists(CrowdedNodes()[n], CrowdedPods(), n)
  {
    forall p
      ensures p in CrowdedNode(n).pods <==> Points(CrowdedPods(), p, n)
    {
    }
  }

  lemma CrowdedInv()
    ensures Inv(Crowded())
  {
    forall n | 0 <= n < |CrowdedNodes()|
      ensures NodeLists(CrowdedNodes()[n], CrowdedPods(), n)
    {
      CrowdedNodeLists(n);
    }
    assert PodsPlaced(CrowdedNodes(), CrowdedPods());
    hide NodeLists, PodsPlaced, CrowdedNodes;
    ClusterOfInv(CrowdedNodes(), CrowdedPods(), [SHRINKING], []);
  }

  lemma CrowdedNodesAre()
    ensures var m := Crowded();
            && (forall n :: m.HasNode(n) <==> n.generation == 0 && n.index < TOP_CANDIDATES + 2)
            && (forall n :: m.HasNode(n) ==> m.Node(n) == CrowdedNode(n.index))
  {
    hide CrowdedNode;
    TableOfFacts(CrowdedNodes());
  }

  lemma CrowdedPodsAre()
    ensures var m := Crowded();
            && (forall p :: m.HasPod(p) <==> p.generation == 0 && p.index < TOP_CANDIDATES + 4)
            && (forall p :: m.HasPod(p) ==> m.Pod(p) == CrowdedPod(p.index))
  {
    hide CrowdedPod;
    TableOfFacts(CrowdedPods());
  }

  lemma CrowdedReplicaSet()
    ensures FindReplicaSet(Crowded(), 2) == Some(Handle(0, 0)) && Crowded().replicaSets.At(Handle(0, 0)) == SHRINKING
  {
    hide CrowdedNodes, CrowdedPods;
    var t := Crowded().replicaSets;
    TableOfFacts([SHRINKING]);
    assert Owns(Crowded(), Handle(0, 0), 2);
    assert OrderUpTo(t.live.Keys, t.generations, 0) == [];
    assert Order(t) == [Handle(0, 0)];
    assert [Handle(0, 0)][..0] == [];
  }

  lemma {:induction false} RunningAmongAll(m: Cluster, ids: seq<PodId>)
    requires forall p :: p in ids ==> m.HasPod(p) && m.Pod(p).phase == Running
    ensures RunningAmong(m, ids) == ids
  {
    if ids != [] {
      RunningAmongAll(m, ids[..|ids| - 1]);
      assert ids == ids[..|ids| - 1] + [ids[|ids| - 1]];
    }
  }

  function CrowdedGroup(i: nat): NodeGroup {
    NodeGroup(Handle(i, 0), CrowdedNode(i).pods)
  }

  lemma CrowdedGroups(g: NodeGroup)
    ensures IsGroup(Crowded(), g) <==> g.node.index < TOP_CANDIDATES + 2 && g == CrowdedGroup(g.node.index)
  {
    hide Crowded;
    CrowdedNodesAre();
    CrowdedPodsAre();
    if Crowded().HasNode(g.node) {
      RunningAmongAll(Crowded(), Crowded().Node(g.node).pods);
    }
  }

  lemma CrowdedTier(i: nat)
    requires i < TOP_CANDIDATES + 2
    ensures TierOf(Crowded(), PodDeletionCostController, CrowdedGroup(i)) == Normal
    ensures RankKey(Crowded(), PodDeletionCostController, CrowdedGroup(i)) == if i < TOP_CANDIDATES then 1 else 2
  {
    hide Crowded;
    CrowdedNodesAre();
    CrowdedPodsAre();
  }

  lemma RankKeysAreOrdered(m: Cluster, strategy: DeletionCostStrategy)
    ensures TotalPreorder(ByRankKey(m, strategy))
  {
    hide RankKey;
  }

  /** All nodes are in the middle tier, those with one pod before the others. */
  lemma CrowdedMiddleTier()
    ensures var ranked := RankedTier(Crowded(), PodDeletionCostController, Normal);
            && Ranking(Crowded(), PodDeletionCostController) == Take(ranked, TOP_CANDIDATES)
            && NoDuplicates(ranked) && SortedBy(ranked, ByRankKey(Crowded(), PodDeletionCostController))
            && forall g :: g in ranked <==> g.node.index < TOP_CANDIDATES + 2 && g == CrowdedGroup(g.node.index)
  {
    hide Crowded, TierOf, IsGroup, ByRankKey, StableSort, InTier, ActiveNodes, Inv, CrowdedGroup;
    var m, strategy := Crowded(), PodDeletionCostController;
    CrowdedInv();
    DriftedTierIsEmpty(m, strategy);
    ActiveNodesFacts(m);
    RankedTierFacts(m, strategy, Normal);
    RankedTierFacts(m, strategy, Protected);
    RankKeysAreOrdered(m, strategy);
    StableSortSorts(InTier(m, strategy, ActiveNodes(m), Normal), ByRankKey(m, strategy));
    var ranked, protected := RankedTier(m, strategy, Normal), RankedTier(m, strategy, Protected);
    hide RankedTier;
    assert protected == [] || protected[0] in protected;
    forall g
      ensures g in ranked <==> g.node.index < TOP_CANDIDATES + 2 && g == CrowdedGroup(g.node.index)
      ensures g !in protected
    {
      CrowdedGroups(g);
      if g.node.index < TOP_CANDIDATES + 2 {
        CrowdedTier(g.node.index);
      }
    }
    assert [] + ranked + [] == ranked;
  }

  lemma CrowdedIsLong(ranked: seq<NodeGroup>)
    requires NoDuplicates(ranked) && forall i :: 0 <= i < TOP_CANDIDATES + 2 ==> CrowdedGroup(i) in ranked
    ensures |ranked| >= TOP_CANDIDATES + 2
  {
    var all := seq(TOP_CANDIDATES + 2, i requires 0 <= i < TOP_CANDIDATES + 2 => CrowdedGroup(i));
    NoDuplicatesCardinality(all);
    NoDuplicatesCardinality(ranked);
    hide CrowdedNode;
    assert Elements(all) <= Elements(ranked);
    Smaller(Elements(all), Elements(ranked));
  }

  /** The two nodes with two pods come last, beyond the cut. */
  lemma CrowdedCut(n: nat)
    requires n == TOP_CANDIDATES || n == TOP_CANDIDATES + 1
    ensures !IsRanked(Crowded(), PodDeletionCostController, Handle(n, 0))
  {
    hide Crowded, CrowdedGroup, RankedTier, Ranking, RankKey;
    var m, strategy := Crowded(), PodDeletionCostController;
    CrowdedMiddleTier();
    var ranked := RankedTier(m, strategy, Normal);
    forall i | 0 <= i < TOP_CANDIDATES + 2
      ensures CrowdedGroup(i) in ranked
    {
      GroupNodes(i);
    }
    CrowdedIsLong(ranked);
    if k :| 0 <= k < TOP_CANDIDATES && ranked[k].node == Handle(n, 0) {
      var other := if n == TOP_CANDIDATES then n + 1 else TOP_CANDIDATES;
      assert ranked[k] != ranked[k + 1] && ranked[k] != ranked[k + 2] && ranked[k + 1] != ranked[k + 2];
      forall j | j == k + 1 || j == k + 2
        ensures ranked[j] == CrowdedGroup(other)
      {
        assert ranked[j] in ranked && ranked[k] in ranked && ByRankKey(m, strategy)(ranked[k], ranked[j]);
        CrowdedTier(n);
        CrowdedTier(ranked[j].node.index);
        GroupNodes(n);
      }
      assert false;
    }
  }

  lemma GroupNodes(i: nat)
    ensures CrowdedGroup(i).node == Handle(i, 0)
  {
  }

  /** A pod of the shrinking owner. */
  predicate IsCrowdedReplica(p: PodId) {
    p.generation == 0 && TOP_CANDIDATES <= p.index < TOP_CANDIDATES + 4
  }

  /** The replicas of a crowded cluster stay where they are when costs change. */
  lemma CrowdedReplica(m: Cluster, p: PodId)
    requires SameButCosts(Crowded(), m)
    ensures p in Replicas(m, 2) <==> IsCrowdedReplica(p)
    ensures IsCrowdedReplica(p) ==> IsOf(m, p, 2, Running)
  {
    hide Crowded;
    CrowdedPodsAre();
    SameKeys(Crowded(), m);
    assert p in m.pods.live <==> m.HasPod(p);
    assert m.HasPod(p) ==> Uncosted(m.Pod(p)) == Uncosted(CrowdedPod(p.index));
  }

  lemma CrowdedPlace(m: Cluster, p: PodId, i: nat)
    requires SameButCosts(Crowded(), m) && IsCrowdedReplica(p) &&
             (p.index == i < TOP_CANDIDATES + 2 || p.index == i + 2)
    requires TOP_CANDIDATES <= i
    ensures m.HasPod(p) && m.Pod(p).node == Some(Handle(i, 0))
  {
    hide Crowded;
    CrowdedPodsAre();
    SameKeys(Crowded(), m);
    assert Uncosted(m.Pod(p)) == Uncosted(CrowdedPod(p.index));
  }

  lemma CrowdedColocated(m: Cluster, p: PodId)
    requires SameButCosts(Crowded(), m) && IsCrowdedReplica(p)
    ensures ColocatedAt(m, p, 2) == 2
  {
    hide Crowded, Replicas;
    CrowdedNodesAre();
    var i := if p.index < TOP_CANDIDATES + 2 then p.index else p.index - 2;
    CrowdedPlace(m, p, i);
    CrowdedReplica(m, Handle(i, 0));
    CrowdedReplica(m, Handle(i + 2, 0));
    assert m.HasNode(Handle(i, 0)) && m.Node(Handle(i, 0)).pods == [Handle(i, 0), Handle(i + 2, 0)];
    hide IsOf, SameButCosts, CrowdedNode, CrowdedPod, IsCrowdedReplica;
    AllOwned(m, [Handle(i, 0), Handle(i + 2, 0)], 2);
  }

  lemma CrowdedCosts(p: PodId)
    requires IsCrowdedReplica(p)
    ensures CostOf(CostPass(Crowded(), PodDeletionCostController), p) == 0
  {
    hide Crowded, Inv, IsRanked, CostPass, SameButCosts, Ranking;
    CrowdedInv();
    CrowdedPodsAre();
    PassRanksPods(Crowded(), PodDeletionCostController);
    CrowdedCut(TOP_CANDIDATES);
    CrowdedCut(TOP_CANDIDATES + 1);
  }

  /** The pass leaves the four replicas as alike as they were. */
  lemma CrowdedAfterPass()
    ensures var m := CostPass(Crowded(), PodDeletionCostController);
            && Inv(m) && SameButCosts(Crowded(), m)
            && (forall p :: p in Replicas(m, 2) <==> IsCrowdedReplica(p))
            && (forall p :: IsCrowdedReplica(p) ==>
                IsOf(m, p, 2, Running) && CostOf(m, p) == 0 && ColocatedAt(m, p, 2) == 2)
  {
    hide Crowded, Inv, CostPass, SameButCosts, Replicas, IsOf, CostOf, ColocatedAt, IsCrowdedReplica, Ranking;
    var m := CostPass(Crowded(), PodDeletionCostController);
    CrowdedInv();
    PassRanksPods(Crowded(), PodDeletionCostController);
    forall p
      ensures p in Replicas(m, 2) <==> IsCrowdedReplica(p)
      ensures IsCrowdedReplica(p) ==> IsOf(m, p, 2, Running) && CostOf(m, p) == 0 && ColocatedAt(m, p, 2) == 2
    {
      CrowdedReplica(m, p);
      if IsCrowdedReplica(p) {
        CrowdedColocated(m, p);
        CrowdedCosts(p);
      }
    }
  }

  lemma {:induction false} AllOwned(m: Cluster, ids: seq<PodId>, owner: OwnerId)
    requires forall p :: p in ids ==> IsOf(m, p, owner, Running)
    ensures PodsOf(m, ids, owner, Running) == ids
  {
    if ids != [] {
      AllOwned(m, ids[..|ids| - 1], owner);
      assert ids == ids[..|ids| - 1] + [ids[|ids| - 1]];
    }
  }

  lemma TwoNewest(victims: seq<PodId>)
    requires NoDuplicates(victims) && |victims| == 2 && forall p :: p in victims ==> IsCrowdedReplica(p)
    requires forall p, q :: p in victims && IsCrowdedReplica(q) && q !in victims ==> p.index >= q.index
    ensures forall p :: IsCrowdedReplica(p) ==> (p in victims <==> p.index >= TOP_CANDIDATES + 2)
  {
    var v, w := victims[0], victims[1];
    assert v in victims && w in victims && v != w;
    assert forall p :: p in victims <==> p == v || p == w;
    var c, d := Handle(TOP_CANDIDATES + 2, 0), Handle(TOP_CANDIDATES + 3, 0);
    assert c in victims && d in victims;
  }

  /** Alike in cost and co-location, the two newest of four replicas go. */
  lemma NewestTwoGo(m: Cluster)
    requires Inv(m) && forall p :: p in Replicas(m, 2) <==> IsCrowdedReplica(p)
    requires forall p :: IsCrowdedReplica(p) ==>
               IsOf(m, p, 2, Running) && CostOf(m, p) == 0 && ColocatedAt(m, p, 2) == 2
    ensures forall p :: IsCrowdedReplica(p) ==> (p in Victims(m, SHRINKING) <==> p.index >= TOP_CANDIDATES + 2)
  {
    hide Inv, Replicas, Victims, IsOf, CostOf, ColocatedAt;
    var a, b := Handle(TOP_CANDIDATES, 0), Handle(TOP_CANDIDATES + 1, 0);
    var c, d := Handle(TOP_CANDIDATES + 2, 0), Handle(TOP_CANDIDATES + 3, 0);
    assert Replicas(m, 2) == {a, b, c, d};
    VictimsAreReplicas(m, SHRINKING);
    var victims := Victims(m, SHRINKING);
    forall p, q | p in victims && IsCrowdedReplica(q) && q !in victims
      ensures p.index >= q.index
    {
      VictimsComeFirst(m, SHRINKING, p, q);
    }
    TwoNewest(victims);
  }

  lemma CrowdedComposes()
    ensures Composes(Crowded(), PodDeletionCostController, 2) && AllOnActive(Crowded(), 2)
  {
    hide Crowded, Inv, FindReplicaSet;
    CrowdedInv();
    CrowdedReplicaSet();
    CrowdedNodesAre();
    CrowdedPodsAre();
  }

  lemma CrowdedFate(p: PodId)
    requires IsCrowdedReplica(p) && Inv(Crowded())
    ensures var m := Crowded();
            var m' := AfterBoth(m, PodDeletionCostController, 2);
            if p.index >= TOP_CANDIDATES + 2 then Deleted(m, m', 2, p) else Survives(m, m', 2, p)
  {
    hide Crowded, Inv, CostPass, CostOf, ColocatedAt, Replicas, Ranking, Reconcile, Victims, FindReplicaSet;
    var m, m1 := Crowded(), CostPass(Crowded(), PodDeletionCostController);
    CrowdedReplicaSet();
    CrowdedAfterPass();
    SameReplicaSetFound(m, m1, 2);
    NewestTwoGo(m1);
    ReconcileConverges(m1, 2);
    SameRunning(m, m1, 2, p);
    hide OnlyReplicasChange, SameButCosts;
  }

  lemma SameReplicaSetFound(m: Cluster, m': Cluster, owner: OwnerId)
    requires SameButCosts(m, m')
    ensures m'.replicaSets == m.replicaSets && FindReplicaSet(m', owner) == FindReplicaSet(m, owner)
  {
    SameReplicaSets(m, m', Order(m.replicaSets), owner);
  }

  /** Beyond the cut more than one node can be left partly emptied: the pass
      gives neither of the two fullest nodes a rank, so their equal pods go by
      age, one from each. */
  lemma CutLeavesTwoPartlyEmptied()
    ensures var m, n1, n2 := Crowded(), Handle(TOP_CANDIDATES, 0), Handle(TOP_CANDIDATES + 1, 0);
            && Composes(m, PodDeletionCostController, 2) && AllOnActive(m, 2)
            && PartlyEmptied(m, AfterBoth(m, PodDeletionCostController, 2), 2, n1)
            && PartlyEmptied(m, AfterBoth(m, PodDeletionCostController, 2), 2, n2)
  {
    hide Crowded, Inv, AfterBoth, AllOnActive, Deleted, Survives, FindReplicaSet;
    CrowdedComposes();
    CrowdedPodsAre();
    CrowdedFate(Handle(TOP_CANDIDATES, 0));
    CrowdedFate(Handle(TOP_CANDIDATES + 1, 0));
    CrowdedFate(Handle(TOP_CANDIDATES + 2, 0));
    CrowdedFate(Handle(TOP_CANDIDATES + 3, 0));
  }

  // ----- The controller -----

  method FilterRunning(state: ClusterState, ids: seq<PodId>) returns (running: seq<PodId>)
    requires state.Valid()
    ensures running == RunningAmong(state.Model(), ids)
  {
    hide Arena.Valid;
    ghost var m := state.Model();
    running := [];
    for i := 0 to |ids|
      invariant state.Model() == m
      invariant running == RunningAmong(m, ids[..i])
    {
      assert ids[..i + 1][..i] == ids[..i];
      var pod := state.pods.Find(ids[i]);
      if pod.Some? && pod.value.phase == Running {
        running := running + [ids[i]];
      }
    }
    assert ids[..|ids|] == ids;
  }

  method CollectActive(state: ClusterState) returns (groups: seq<NodeGroup>)
    requires state.Valid()
    ensures groups == ActiveNodes(state.Model())
  {
    hide Arena.Valid, RunningAmong;
    ghost var m := state.Model();
    groups := [];
    var ids := state.nodes.Handles();
    for i := 0 to |ids|
      invariant state.Model() == m
      invariant groups == ActiveAmong(m, ids[..i])
    {
      assert ids[..i + 1][..i] == ids[..i];
      var node := state.nodes.Find(ids[i]);
      if node.Some? && node.value.ready && !node.value.cordoned {
        var running := FilterRunning(state, node.value.pods);
        if running != [] {
          groups := groups + [NodeGroup(ids[i], running)];
        }
      }
    }
    assert ids[..|ids|] == ids;
  }

  method CheckProtected(state: ClusterState, g: NodeGroup) returns (found: bool)
    requires state.Valid()
    ensures found == HasProtectedPod(state.Model(), g)
  {
    hide Arena.Valid, Lookup;
    ghost var m := state.Model();
    for i := 0 to |g.pods|
      invariant state.Model() == m
      invariant forall k :: 0 <= k < i ==>
                  !(m.HasPod(g.pods[k]) && Lookup(m.Pod(g.pods[k]).labels, DO_NOT_DISRUPT_KEY).Some?)
    {
      var pod := state.pods.Find(g.pods[i]);
      if pod.Some? && Lookup(pod.value.labels, DO_NOT_DISRUPT_KEY).Some? {
        assert g.pods[i] in g.pods;
        return true;
      }
    }
    found := false;
  }

  method Classify(state: ClusterState, strategy: DeletionCostStrategy, g: NodeGroup) returns (tier: Tier)
    requires state.Valid()
    ensures tier == TierOf(state.Model(), strategy, g)
  {
    hide Arena.Valid, HasProtectedPod;
    var found := CheckProtected(state, g);
    var node := state.nodes.Find(g.node);
    if found {
      return Protected;
    } else if strategy.PodDeletionCostController? && node.Some? && node.value.doNotDisrupt {
      return Protected;
    } else if strategy.PodDeletionCostController? && node.Some? && node.value.cordoned {
      return Drifted;
    }
    tier := Normal;
  }

  method Partition(state: ClusterState, strategy: DeletionCostStrategy, groups: seq<NodeGroup>)
    returns (drifted: seq<NodeGroup>, normal: seq<NodeGroup>, protected: seq<NodeGroup>)
    requires state.Valid()
    ensures drifted == InTier(state.Model(), strategy, groups, Drifted)
    ensures normal == InTier(state.Model(), strategy, groups, Normal)
    ensures protected == InTier(state.Model(), strategy, groups, Protected)
  {
    hide Arena.Valid, TierOf;
    ghost var m := state.Model();
    drifted, normal, protected := [], [], [];
    for i := 0 to |groups|
      invariant state.Model() == m
      invariant drifted == InTier(m, strategy, groups[..i], Drifted)
      invariant normal == InTier(m, strategy, groups[..i], Normal)
      invariant protected == InTier(m, strategy, groups[..i], Protected)
    {
      assert groups[..i + 1][..i] == groups[..i];
      var tier := Classify(state, strategy, groups[i]);
      match tier {
        case Drifted => drifted := drifted + [groups[i]];
        case Normal => normal := normal + [groups[i]];
        case Protected => protected := protected + [groups[i]];
      }
    }
    assert groups[..|groups|] == groups;
  }

  method ReadRankKey(state: ClusterState, strategy: DeletionCostStrategy, g: NodeGroup) returns (key: int)
    requires state.Valid()
    ensures key == RankKey(state.Model(), strategy, g)
  {
    hide Arena.Valid;
    var node := state.nodes.Find(g.node);
    match strategy {
      case NoStrategy => key := 0;
      case RandomOrder => key := g.node.index;
      case PreferEmptyingNodes => key := |g.pods|;
      case PodDeletionCostController => key := |g.pods|;
      case LargestFirst => key := if node.Some? then 0 - node.value.allocatable.cpu else 0;
      case UnallocatedVcpu =>
        key := if node.Some? then
          0 - MonusNat(node.value.allocatable.cpu, node.value.used.cpu) / (if g.pods == [] then 1 else |g.pods|) else 0;
    }
  }

  method Rank(state: ClusterState, strategy: DeletionCostStrategy, groups: seq<NodeGroup>)
    returns (ranked: seq<NodeGroup>)
    requires state.Valid()
    ensures ranked == StableSort(groups, ByRankKey(state.Model(), strategy))
  {
    hide Arena.Valid, RankKey, StableSort;
    ghost var m := state.Model();
    var keys: map<NodeGroup, int> := map[];
    for i := 0 to |groups|
      invariant state.Model() == m
      invariant forall k :: 0 <= k < i ==> groups[k] in keys && keys[groups[k]] == RankKey(m, strategy, groups[k])
    {
      var key := ReadRankKey(state, strategy, groups[i]);
      keys := keys[groups[i] := key];
    }
    var le := (a: NodeGroup, b: NodeGroup) => a in keys && b in keys && keys[a] <= keys[b];
    StableSortSame(groups, le, ByRankKey(m, strategy));
    ranked := StableSort(groups, le);
  }

  method WriteCost(state: ClusterState, ids: seq<PodId>, cost: int)
    requires state.Valid()
    modifies state.pods
    ensures state.Valid() && state.Model() == AssignCost(old(state.Model()), ids, cost)
  {
    hide Arena.Valid, SetDeletionCost;
    for i := 0 to |ids|
      invariant state.Valid() && state.Model() == AssignCost(old(state.Model()), ids[..i], cost)
    {
      assert ids[..i + 1][..i] == ids[..i];
      state.SetDeletionCost(ids[i], cost);
    }
    assert ids[..|ids|] == ids;
  }

  method WriteRanks(state: ClusterState, groups: seq<NodeGroup>, base: int)
    requires state.Valid()
    modifies state.pods
    ensures state.Valid() && state.Model() == AssignRanks(old(state.Model()), groups, base)
  {
    hide Arena.Valid, AssignCost;
    for i := 0 to |groups|
      invariant state.Valid() && state.Model() == AssignRanks(old(state.Model()), groups[..i], base)
    {
      assert groups[..i + 1][..i] == groups[..i];
      WriteCost(state, groups[i].pods, base + i);
    }
    assert groups[..|groups|] == groups;
  }

  /** Ranking one list after another is ranking them together. */
  lemma {:induction false} RanksContinue(m: Cluster, a: seq<NodeGroup>, b: seq<NodeGroup>, base: int)
    ensures AssignRanks(m, a + b, base) == AssignRanks(AssignRanks(m, a, base), b, base + |a|)
  {
    hide AssignCost;
    if b == [] {
      assert a + b == a;
    } else {
      RanksContinue(m, a, b[..|b| - 1], base);
      assert (a + b)[..|a + b| - 1] == a + b[..|b| - 1];
    }
  }

  /** Handle `DeletionCostReconcile`. */
  method ReconcileCosts(state: ClusterState, strategy: DeletionCostStrategy)
    requires state.Valid()
    modifies state.pods
    ensures state.Valid() && state.Model() == CostPass(old(state.Model()), strategy)
  {
    hide Arena.Valid, ActiveNodes, TierOf, StableSort, AssignRanks, ByRankKey;
    if strategy.NoStrategy? {
      return;
    }
    var groups := CollectActive(state);
    var drifted, normal, protected := Partition(state, strategy, groups);
    var ranked := Rank(state, strategy, normal);
    if strategy.PodDeletionCostController? {
      var first := Rank(state, strategy, drifted);
      var last := Rank(state, strategy, protected);
      WriteRanks(state, Take(first + ranked + last, TOP_CANDIDATES), BASE_RANK);
    } else {
      RanksContinue(state.Model(), ranked, protected, BASE_RANK);
      WriteRanks(state, ranked, BASE_RANK);
      WriteRanks(state, protected, BASE_RANK + |ranked|);
    }
  }
}
