/** The provisioner: group the pending pods and decide which instances to launch. */
module Provisioning {
  import opened Types
  import opened Sequences
  import opened Arenas
  import opened ClusterModel
  import opened ClusterStates
  import opened NodePools
  import opened InstanceTypes
  import opened UniformBatches
  import opened ClaimPacking
  import opened Examples

  // ----- Batches -----

  /** Required labels and toleration keys are compared without regard to order;
      repeated labels count once, repeated toleration keys do not. */
  datatype BatchKey = BatchKey(labels: set<(string, string)>, tolerationKeys: multiset<string>, gpu: nat)

  function KeysOf(tolerations: seq<Toleration>): seq<string> {
    seq(|tolerations|, i requires 0 <= i < |tolerations| => tolerations[i].key)
  }

  function KeyOf(pod: Pod): BatchKey {
    BatchKey(
      set term, pair |
        term in pod.constraints.nodeAffinity && term.affinityType.Required? && pair in term.matchLabels :: pair,
      multiset(KeysOf(pod.constraints.tolerations)),
      pod.requests.gpu)
  }

  /** The pod tolerates the pool's taints, and its required labels are the pool's. */
  predicate MatchesPool(pod: Pod, pool: NodePool) {
    && (forall taint | taint in pool.taints :: exists t | t in pod.constraints.tolerations :: t.Tolerates(taint))
    && (pool.labels != [] ==>
          forall term | term in pod.constraints.nodeAffinity :: term.affinityType.Required? ==>
            Matches(pool.labels, term.matchLabels))
  }

  predicate Eligible(m: Cluster, pool: NodePool, p: PodId) {
    m.HasPod(p) && m.Pod(p).phase == Pending && MatchesPool(m.Pod(p), pool)
  }

  function AddToBatch(groups: map<BatchKey, seq<PodId>>, key: BatchKey, p: PodId): map<BatchKey, seq<PodId>> {
    groups[key := (if key in groups then groups[key] else []) + [p]]
  }

  function BatchesOf(m: Cluster, pool: NodePool, ids: seq<PodId>): map<BatchKey, seq<PodId>> {
    if ids == [] then map[]
    else
      var groups, p := BatchesOf(m, pool, ids[..|ids| - 1]), ids[|ids| - 1];
      if Eligible(m, pool, p) then AddToBatch(groups, KeyOf(m.Pod(p)), p) else groups
  }

  /** Each eligible pod is in exactly the batch of its key, once. */
  ghost predicate Partitioned(m: Cluster, pool: NodePool, ids: seq<PodId>, groups: map<BatchKey, seq<PodId>>) {
    && (forall key :: key in groups ==> NoDuplicates(groups[key]) && groups[key] != [])
    && (forall key, p :: key in groups && p in groups[key] ==>
        p in ids && Eligible(m, pool, p) && KeyOf(m.Pod(p)) == key)
    && (forall p :: p in ids && Eligible(m, pool, p) ==> KeyOf(m.Pod(p)) in groups && p in groups[KeyOf(m.Pod(p))])
  }

  lemma AddToBatchPartitions(m: Cluster, pool: NodePool, ids: seq<PodId>, groups: map<BatchKey, seq<PodId>>, p: PodId)
    requires Partitioned(m, pool, ids, groups) && p !in ids && Eligible(m, pool, p)
    ensures Partitioned(m, pool, ids + [p], AddToBatch(groups, KeyOf(m.Pod(p)), p))
  {
    hide MatchesPool;
    var key := KeyOf(m.Pod(p));
    if key in groups {
      NoDuplicatesConcat(groups[key], [p]);
    }
  }

  lemma {:induction false} BatchesPartition(m: Cluster, pool: NodePool, ids: seq<PodId>)
    requires NoDuplicates(ids)
    ensures Partitioned(m, pool, ids, BatchesOf(m, pool, ids))
  {
    hide MatchesPool;
    if ids != [] {
      var front, p := ids[..|ids| - 1], ids[|ids| - 1];
      assert ids == front + [p];
      assert p !in front;
      BatchesPartition(m, pool, front);
      if Eligible(m, pool, p) {
        AddToBatchPartitions(m, pool, front, BatchesOf(m, pool, front), p);
      }
    }
  }

  // ----- Deciding a batch -----

  function SizeOf(m: Cluster, p: PodId): nat {
    if m.HasPod(p) then m.Pod(p).requests.cpu + m.Pod(p).requests.mem / 1_000_000 else 0
  }

  function BySize(m: Cluster): (PodId, PodId) -> bool {
    (a: PodId, b: PodId) => SizeOf(m, a) >= SizeOf(m, b)
  }

  /** The live pods of the batch, largest first. */
  function LargestFirst(m: Cluster, ids: seq<PodId>): seq<PodId> {
    StableSort(LivePods(m, ids), BySize(m))
  }

  datatype Provisioned = Provisioned(decisions: seq<Decision>, usage: NodePoolUsage)

  /** The decisions for one batch; `None` when the arithmetic overflows. */
  function DecideBatch(
    m: Cluster, types: seq<InstanceType>, pool: NodePool, usage: NodePoolUsage, batch: seq<PodId>): Option<Provisioned>
  {
    var ids := LargestFirst(m, batch);
    if AllSame(m, ids) then
      AllSameFromFirst(m, ids, 0);
      var decisions := FastPath(m, types, ids);
      if decisions.None? then None else Some(Provisioned(decisions.value, usage))
    else
      var s := PackAll(m, types, pool, usage, ids);
      Some(Provisioned(Decide(types, BinsOf(s.packing.claims)), s.usage))
  }

  function DecideAll(
    m: Cluster, types: seq<InstanceType>, pool: NodePool, usage: NodePoolUsage, batches: seq<seq<PodId>>)
    : Option<Provisioned>
  {
    if batches == [] then Some(Provisioned([], usage))
    else
      var before := DecideAll(m, types, pool, usage, batches[..|batches| - 1]);
      if before.None? then None
      else
        var r := DecideBatch(m, types, pool, before.value.usage, batches[|batches| - 1]);
        if r.None? then None else Some(Provisioned(before.value.decisions + r.value.decisions, r.value.usage))
  }

  // ----- What a pass guarantees -----

  /** The decision is for listed pods, each once, and its type holds them all. */
  ghost predicate Serves(m: Cluster, types: seq<InstanceType>, ids: seq<PodId>, d: Decision) {
    && NoDuplicates(d.pods) && (forall p :: p in d.pods ==> p in ids && m.HasPod(p))
    && Buys(types, d, BinOf(m, d.pods))
  }

  lemma LargestFirstFacts(m: Cluster, ids: seq<PodId>)
    requires NoDuplicates(ids)
    ensures NoDuplicates(LargestFirst(m, ids)) && forall p :: p in LargestFirst(m, ids) <==> p in ids && m.HasPod(p)
  {
    LivePodsFacts(m, ids);
    StableSortPermutes(LivePods(m, ids), BySize(m));
    PermutationFacts(LargestFirst(m, ids), LivePods(m, ids));
  }

  /** The fast path's decisions, too, are sound about pods and capacity. */
  lemma UniformServes(m: Cluster, types: seq<InstanceType>, ids: seq<PodId>)
    requires AllSame(m, ids) && NoDuplicates(ids) && m.HasPod(ids[0]) && FastPath(m, types, ids).Some?
    ensures var decisions := FastPath(m, types, ids).value;
            (forall d :: d in decisions ==> Serves(m, types, ids, d)) && NoCommonPod(decisions)
  {
    var k := ClaimsNeeded(|ids|, ClaimSize(types, m.Pod(ids[0]))).value;
    CeilingFacts(|ids|, ClaimSize(types, m.Pod(ids[0])), k);
    var bins := DealtBins(m, ids, k);
    forall c | 0 <= c < k
      ensures NoDuplicates(bins[c].pods) && forall p :: p in bins[c].pods ==> p in ids && m.HasPod(p)
    {
      DealtMembers(ids, k, c);
      LiveWhenSame(m, ids);
    }
    forall b, c, p | 0 <= b < c < |bins| && p in bins[b].pods
      ensures p !in bins[c].pods
    {
      if p in bins[c].pods {
        DealtOnce(m, ids, k, b, c, p);
      }
    }
    DecideKeepsDisjoint(types, bins);
    DecisionsFit(types, bins);
    hide Decide, NoCommonPod, AllSame, ClaimSize, Dealt, NoDuplicates;
    forall d | d in Decide(types, bins)
      ensures Serves(m, types, ids, d)
    {
      var bin :| bin in bins && Buys(types, d, bin);
      var c :| 0 <= c < |bins| && bins[c] == bin;
    }
  }

  lemma LiveWhenSame(m: Cluster, ids: seq<PodId>)
    requires AllSame(m, ids)
    ensures forall p :: p in ids ==> m.HasPod(p)
  {
    forall p | p in ids
      ensures m.HasPod(p)
    {
      var i :| 0 <= i < |ids| && ids[i] == p;
      AllSameFromFirst(m, ids, i);
    }
  }

  lemma BatchServes(m: Cluster, types: seq<InstanceType>, pool: NodePool, usage: NodePoolUsage, batch: seq<PodId>)
    requires NoDuplicates(batch) && DecideBatch(m, types, pool, usage, batch).Some?
    ensures var decisions := DecideBatch(m, types, pool, usage, batch).value.decisions;
            (forall d :: d in decisions ==> Serves(m, types, batch, d)) && NoCommonPod(decisions)
  {
    LargestFirstFacts(m, batch);
    var ids := LargestFirst(m, batch);
    hide LargestFirst, PackAll, Buys, BinOf, Decide, NoCommonPod;
    if AllSame(m, ids) {
      AllSameFromFirst(m, ids, 0);
      hide AllSame, FastPath, NoDuplicates;
      UniformServes(m, types, ids);
    } else {
      hide AllSame, NoDuplicates, Compatible, WithinSpread;
      PackingIsSound(m, types, pool, usage, ids);
    }
  }

  /** Batches without repeated pods, within a batch or between batches. */
  ghost predicate DisjointBatches(batches: seq<seq<PodId>>) {
    && (forall b :: 0 <= b < |batches| ==> NoDuplicates(batches[b]))
    && (forall b, c, p :: 0 <= b < c < |batches| && p in batches[b] ==> p !in batches[c])
  }

  ghost predicate ServesSome(m: Cluster, types: seq<InstanceType>, batches: seq<seq<PodId>>, d: Decision) {
    exists b :: 0 <= b < |batches| && Serves(m, types, batches[b], d)
  }

  /** Over a whole pass, every decision serves one batch with a type that holds
      its pods, and no pod is in two decisions. */
  lemma {:induction false} ProvisioningIsSound(
    m: Cluster, types: seq<InstanceType>, pool: NodePool, usage: NodePoolUsage, batches: seq<seq<PodId>>)
    requires DisjointBatches(batches) && DecideAll(m, types, pool, usage, batches).Some?
    ensures var decisions := DecideAll(m, types, pool, usage, batches).value.decisions;
            (forall d :: d in decisions ==> ServesSome(m, types, batches, d)) && NoCommonPod(decisions)
  {
    if batches != [] {
      var k := |batches| - 1;
      var front, last := batches[..k], batches[k];
      assert forall b :: 0 <= b < k ==> front[b] == batches[b];
      ProvisioningIsSound(m, types, pool, usage, front);
      var before := DecideAll(m, types, pool, usage, front).value;
      hide DecideBatch, NoDuplicates;
      BatchServes(m, types, pool, before.usage, last);
      hide DecideAll, NoCommonPod, Serves;
      JoinDecisions(m, types, batches, before.decisions,
                    DecideBatch(m, types, pool, before.usage, last).value.decisions);
    }
  }

  lemma JoinDecisions(
    m: Cluster, types: seq<InstanceType>, batches: seq<seq<PodId>>, before: seq<Decision>, more: seq<Decision>)
    requires batches != [] && DisjointBatches(batches) && NoCommonPod(before) && NoCommonPod(more)
    requires forall d :: d in before ==> ServesSome(m, types, batches[..|batches| - 1], d)
    requires forall d :: d in more ==> Serves(m, types, batches[|batches| - 1], d)
    ensures forall d :: d in before + more ==> ServesSome(m, types, batches, d)
    ensures NoCommonPod(before + more)
  {
    hide Buys, BinOf, NoDuplicates;
    var k := |batches| - 1;
    forall d | d in before + more
      ensures ServesSome(m, types, batches, d)
    {
      if d in before {
        var b :| 0 <= b < k && Serves(m, types, batches[..k][b], d);
        assert Serves(m, types, batches[b], d);
      } else {
        assert Serves(m, types, batches[k], d);
      }
    }
    forall d, e, p | d in before && e in more && p in d.pods
      ensures p !in e.pods
    {
      var b :| 0 <= b < k && Serves(m, types, batches[..k][b], d);
      assert p in batches[b];
    }
    var all := before + more;
    forall d, e, p | 0 <= d < e < |all| && p in all[d].pods
      ensures p !in all[e].pods
    {
      if d < |before| <= e {
        assert before[d] in before && more[e - |before|] in more;
      }
    }
  }

  // ----- Hosts on the fast path -----

  /** The first pod of the batch, and so every pod, repels the `i`-th. */
  predicate IsRepelled(m: Cluster, ids: seq<PodId>, i: nat)
    requires i < |ids| && m.HasPod(ids[0]) && m.HasPod(ids[i])
  {
    Repels(m.Pod(ids[0]), m.Pod(ids[i]))
  }

  lemma AllRepelAlike(m: Cluster, ids: seq<PodId>, i: nat, j: nat)
    requires AllSame(m, ids) && i < |ids| && j < |ids|
    ensures m.HasPod(ids[0]) && m.HasPod(ids[i]) && m.HasPod(ids[j])
    ensures Repels(m.Pod(ids[i]), m.Pod(ids[j])) <==> IsRepelled(m, ids, j)
  {
    AllSameFromFirst(m, ids, i);
    AllSameFromFirst(m, ids, j);
  }

  /** A claim of a uniform batch respects hostname anti-affinity exactly when it
      holds one pod, or none that the pods of the batch repel. */
  lemma ClaimRespectsHosts(m: Cluster, ids: seq<PodId>, k: nat, c: nat)
    requires AllSame(m, ids) && NoDuplicates(ids) && c < k
    ensures m.HasPod(ids[0]) && forall i :: 0 <= i < |ids| ==> m.HasPod(ids[i])
    ensures Compatible(m, Dealt(ids, k, c)) <==>
            |Dealt(ids, k, c)| <= 1 || forall i :: 0 <= i < |ids| && i % k == c ==> !IsRepelled(m, ids, i)
  {
    LiveWhenSame(m, ids);
    DealtMembers(ids, k, c);
    var pods := Dealt(ids, k, c);
    hide Dealt, AllSame, Repels, IsRepelled;
    if forall i :: 0 <= i < |ids| && i % k == c ==> !IsRepelled(m, ids, i) {
      forall a, b | 0 <= a < |pods| && 0 <= b < |pods|
        ensures !Repels(m.Pod(pods[a]), m.Pod(pods[b]))
      {
        DealtPair(m, ids, k, c, a, b);
      }
    } else if |pods| > 1 {
      var j :| 0 <= j < |ids| && j % k == c && IsRepelled(m, ids, j);
      var b :| 0 <= b < |pods| && pods[b] == ids[j];
      var a := if b == 0 then 1 else 0;
      DealtPair(m, ids, k, c, a, b);
      assert m.HasPod(pods[a]) && m.HasPod(pods[b]);
    }
  }

  /** Two pods of a claim: the first repels the second as the batch does. */
  lemma DealtPair(m: Cluster, ids: seq<PodId>, k: nat, c: nat, a: nat, b: nat)
    requires AllSame(m, ids) && NoDuplicates(ids) && c < k
    requires a < |Dealt(ids, k, c)| && b < |Dealt(ids, k, c)|
    ensures var pods := Dealt(ids, k, c);
            && m.HasPod(pods[a]) && m.HasPod(pods[b])
            && exists j :: 0 <= j < |ids| && j % k == c && ids[j] == pods[b] && m.HasPod(ids[0]) &&
                           (Repels(m.Pod(pods[a]), m.Pod(pods[b])) <==> IsRepelled(m, ids, j))
  {
    var pods := Dealt(ids, k, c);
    DealtMembers(ids, k, c);
    hide Dealt, AllSame, Repels, IsRepelled;
    assert pods[a] in pods && pods[b] in pods;
    var i :| 0 <= i < |ids| && ids[i] == pods[a];
    var j :| 0 <= j < |ids| && ids[j] == pods[b];
    AllRepelAlike(m, ids, i, j);
  }

  /** The batch, too, agrees on labels: then self-repulsion decides for all. */
  predicate SameLabels(m: Cluster, ids: seq<PodId>) {
    forall p, q | p in ids && q in ids :: m.HasPod(p) && m.HasPod(q) ==> m.Pod(p).labels == m.Pod(q).labels
  }

  lemma SameLabelsRepelAlike(m: Cluster, ids: seq<PodId>, i: nat)
    requires AllSame(m, ids) && SameLabels(m, ids) && i < |ids| && m.HasPod(ids[0]) && m.HasPod(ids[i])
    ensures IsRepelled(m, ids, i) <==> RepelsItself(m.Pod(ids[0]))
  {
    assert ids[i] in ids && ids[0] in ids;
  }

  /** When the pods of a uniform batch also share their labels, the fast path
      respects hostname anti-affinity and hostname spread. */
  lemma UniformClaimsRespectHosts(m: Cluster, types: seq<InstanceType>, ids: seq<PodId>, k: nat, c: nat)
    requires AllSame(m, ids) && SameLabels(m, ids) && NoDuplicates(ids) && m.HasPod(ids[0]) && c < k
    requires ClaimsNeeded(|ids|, ClaimSize(types, m.Pod(ids[0]))) == Some(k)
    ensures Compatible(m, Dealt(ids, k, c))
    ensures |Dealt(ids, k, c)| <= Max(MinSkew(m.Pod(ids[0]).constraints.topologySpread, U64_MAX), 1)
  {
    ShareFacts(m, types, ids, k, c);
    ClaimRespectsHosts(m, ids, k, c);
    hide Dealt, AllSame, SameLabels, Repels, IsRepelled, Compatible;
    forall i | 0 <= i < |ids| && i % k == c
      ensures IsRepelled(m, ids, i) <==> RepelsItself(m.Pod(ids[0]))
    {
      SameLabelsRepelAlike(m, ids, i);
    }
  }

  /** A pod with the label that keeps away from the pods labelled b. */
  function KeepingAway(app: string): Pod {
    Pod(Resources(1, 1, 0, 0), Pending, None,
        Constraints([], [PodAffinityTerm(Required, [("app", "b")], HOSTNAME, true)], [], []),
        None, 0, 0, [("app", app)], false, false, None)
  }

  /** A uniform batch with different labels. */
  function MixedBatch(): Cluster {
    ClusterOf([], [KeepingAway("a"), KeepingAway("b")], [], [Handle(0, 0), Handle(1, 0)])
  }

  lemma MixedBatchFacts()
    ensures var m := MixedBatch();
            && Inv(m) && m.HasPod(Handle(0, 0)) && m.HasPod(Handle(1, 0))
            && m.Pod(Handle(0, 0)) == KeepingAway("a") && m.Pod(Handle(1, 0)) == KeepingAway("b")
  {
    var pods, pending := [KeepingAway("a"), KeepingAway("b")], [Handle(0, 0), Handle(1, 0)];
    assert QueueLists(pods, pending);
    ClusterOfInv([], pods, [], pending);
  }

  lemma MixedBatchSize(types: seq<InstanceType>)
    requires types == [InstanceType("t", 2, 2, 0, 1.0)]
    ensures ClaimSize(types, KeepingAway("a")) == 2
    ensures Repels(KeepingAway("a"), KeepingAway("b"))
  {
    var pod := KeepingAway("a");
    var terms := pod.constraints.podAffinity;
    assert "a"[0] != "b"[0];
    assert Lookup([("app", "a")], "app") == Some("a") && Lookup([("app", "b")], "app") == Some("b");
    assert terms[0].selector[0] in terms[0].selector;
    assert terms[0] in terms && Matches(KeepingAway("b").labels, terms[0].selector);
    assert !RepelsItself(pod);
    assert PodsOn(types[0], pod.requests) == 2 && types[0] in types;
    assert MaxByResources(types, pod.requests) == 2;
  }

  lemma MixedBatchSame(ids: seq<PodId>)
    requires ids == [Handle(0, 0), Handle(1, 0)]
    ensures AllSame(MixedBatch(), ids) && MixedBatch().HasPod(ids[0])
    ensures BinOf(MixedBatch(), ids) == Bin(ids, 2, 2, 0)
    ensures !Compatible(MixedBatch(), ids)
  {
    hide MixedBatch;
    var m := MixedBatch();
    MixedBatchFacts();
    MixedBatchSize([InstanceType("t", 2, 2, 0, 1.0)]);
    hide Repels, MixedBatch;
    assert SameAsNext(m, ids, 0);
    assert forall p :: p in ids ==> RequestOf(m.pods.live, p) == Resources(1, 1, 0, 0);
    UniformTotal(m, ids, Resources(1, 1, 0, 0));
  }

  lemma OneBinDecided(t: InstanceType, bin: Bin)
    requires bin.pods != [] && t.Holds(bin.cpu, bin.mem, bin.gpu)
    ensures Decide([t], [bin]) == [Decision(t.name, t.price, bin.pods)]
  {
    assert t in [t];
    assert SomeHolds([t], bin.cpu, bin.mem, bin.gpu);
    assert [bin][..0] == [];
    assert Decide([t], []) == [];
  }

  /** The fast path looks at the labels of the first pod only: one that does not
      repel itself shares a claim, and a node, with one that it repels. */
  lemma DifferentLabelsShareAHost()
    ensures var m, ids, types := MixedBatch(), [Handle(0, 0), Handle(1, 0)], [InstanceType("t", 2, 2, 0, 1.0)];
            && Inv(m) && AllSame(m, ids) && m.HasPod(ids[0])
            && FastPath(m, types, ids) == Some([Decision("t", 1.0, ids)]) && !Compatible(m, ids)
  {
    hide MixedBatch, AllSame, Compatible, Inv, BinOf, ClaimSize, Dealt, KeepingAway, Decide;
    var m, ids, t := MixedBatch(), [Handle(0, 0), Handle(1, 0)], InstanceType("t", 2, 2, 0, 1.0);
    MixedBatchFacts();
    MixedBatchSame(ids);
    MixedBatchSize([t]);
    AllDealtToOne(ids);
    assert ClaimsNeeded(2, 2) == Some(1);
    assert DealtBins(m, ids, 1) == [BinOf(m, ids)];
    OneBinDecided(t, BinOf(m, ids));
  }

  // ----- The loops -----

  method BatchPendingPods(state: ClusterState, pool: NodePool) returns (groups: map<BatchKey, seq<PodId>>)
    requires state.Valid()
    ensures groups == BatchesOf(state.Model(), pool, state.Model().pending)
  {
    hide Arena.Valid, MatchesPool;
    ghost var m := state.Model();
    groups := map[];
    var ids := state.pendingQueue;
    for i := 0 to |ids|
      invariant state.Model() == m
      invariant groups == BatchesOf(m, pool, ids[..i])
    {
      assert ids[..i + 1][..i] == ids[..i];
      var pod := state.pods.Find(ids[i]);
      if pod.Some? && pod.value.phase == Pending && MatchesPool(pod.value, pool) {
        groups := AddToBatch(groups, KeyOf(pod.value), ids[i]);
      }
    }
    assert ids[..|ids|] == ids;
  }

  method SortLargestFirst(state: ClusterState, batch: seq<PodId>) returns (sorted: seq<PodId>)
    requires state.Valid()
    ensures sorted == LargestFirst(state.Model(), batch)
  {
    hide Arena.Valid, StableSort;
    ghost var m := state.Model();
    var live: seq<PodId> := [];
    var sizes: map<PodId, nat> := map[];
    for i := 0 to |batch|
      invariant state.Model() == m
      invariant live == LivePods(m, batch[..i])
      invariant forall p :: p in live ==> p in sizes && sizes[p] == SizeOf(m, p)
    {
      assert batch[..i + 1][..i] == batch[..i];
      var pod := state.pods.Find(batch[i]);
      if pod.Some? {
        live := live + [batch[i]];
        sizes := sizes[batch[i] := pod.value.requests.cpu + pod.value.requests.mem / 1_000_000];
      }
    }
    assert batch[..|batch|] == batch;
    var le := (a: PodId, b: PodId) => a in sizes && b in sizes && sizes[a] >= sizes[b];
    StableSortSame(live, le, BySize(m));
    sorted := StableSort(live, le);
  }

  /** Decide one batch on the fast path if it is uniform, else by packing. */
  method DecideOne(
    state: ClusterState, types: seq<InstanceType>, pool: NodePool, usage: NodePoolUsage, batch: seq<PodId>)
    returns (r: Option<Provisioned>)
    requires state.Valid()
    ensures r == DecideBatch(state.Model(), types, pool, usage, batch)
  {
    hide Arena.Valid, LargestFirst, AllSame, FastPath, PackAll, Decide;
    var ids := SortLargestFirst(state, batch);
    var same := CheckAllSame(state, ids);
    if same {
      AllSameFromFirst(state.Model(), ids, 0) by { MoreThanOne(state.Model(), ids); }
      MoreThanOne(state.Model(), ids);
      var decisions := PlanUniform(state, types, ids);
      r := if decisions.None? then None else Some(Provisioned(decisions.value, usage));
    } else {
      var pk, used, _ := PackPods(state, types, pool, usage, ids);
      var decisions := Finalize(types, BinsOf(pk.claims));
      r := Some(Provisioned(decisions, used));
    }
  }

  lemma MoreThanOne(m: Cluster, ids: seq<PodId>)
    ensures AllSame(m, ids) ==> |ids| > 1
  {
  }

  function InOrder(groups: map<BatchKey, seq<PodId>>, keys: seq<BatchKey>): seq<seq<PodId>>
    requires forall key :: key in keys ==> key in groups
  {
    seq(|keys|, i requires 0 <= i < |keys| => assert keys[i] in keys; groups[keys[i]])
  }

  lemma BatchMember(
    m: Cluster, pool: NodePool, ids: seq<PodId>, groups: map<BatchKey, seq<PodId>>, key: BatchKey, p: PodId)
    requires Partitioned(m, pool, ids, groups) && key in groups
    ensures p in groups[key] ==> m.HasPod(p) && KeyOf(m.Pod(p)) == key
  {
    hide KeyOf, MatchesPool;
  }

  lemma OneBatchOnly(
    m: Cluster, pool: NodePool, ids: seq<PodId>, groups: map<BatchKey, seq<PodId>>, a: BatchKey, b: BatchKey, p: PodId)
    requires Partitioned(m, pool, ids, groups) && a in groups && b in groups && a != b && p in groups[a]
    ensures p !in groups[b]
  {
    BatchMember(m, pool, ids, groups, a, p);
    BatchMember(m, pool, ids, groups, b, p);
  }

  /** The batches of one pass are disjoint, in whatever order they are visited. */
  lemma GroupsAreDisjoint(
    m: Cluster, pool: NodePool, ids: seq<PodId>, groups: map<BatchKey, seq<PodId>>, keys: seq<BatchKey>)
    requires Partitioned(m, pool, ids, groups) && NoDuplicates(keys) && forall key :: key in keys ==> key in groups
    ensures DisjointBatches(InOrder(groups, keys))
  {
    hide MatchesPool;
    var batches := InOrder(groups, keys);
    forall b | 0 <= b < |batches|
      ensures NoDuplicates(batches[b])
    {
      assert keys[b] in keys;
    }
    forall b, c, p | 0 <= b < c < |batches| && p in batches[b]
      ensures p !in batches[c]
    {
      assert keys[b] in keys && keys[c] in keys && keys[b] != keys[c];
      OneBatchOnly(m, pool, ids, groups, keys[b], keys[c], p);
    }
  }

  /** In an accounted cluster, whatever the order of the groups, no pod is bought
      two nodes, and nodes are bought for Pending pods of the pool only. */
  lemma PassServesPending(
    m: Cluster, types: seq<InstanceType>, pool: NodePool, usage: NodePoolUsage, keys: seq<BatchKey>)
    requires Inv(m) && NoDuplicates(keys) && forall key :: key in keys ==> key in BatchesOf(m, pool, m.pending)
    requires DecideAll(m, types, pool, usage, InOrder(BatchesOf(m, pool, m.pending), keys)).Some?
    ensures var decisions :=
            DecideAll(m, types, pool, usage, InOrder(BatchesOf(m, pool, m.pending), keys)).value.decisions;
            && NoCommonPod(decisions)
            && (forall d, p :: d in decisions && p in d.pods ==> Eligible(m, pool, p) && p in m.pending)
  {
    assert QueueAgrees(m);
    var groups := BatchesOf(m, pool, m.pending);
    BatchesPartition(m, pool, m.pending);
    GroupsAreDisjoint(m, pool, m.pending, groups, keys);
    var batches := InOrder(groups, keys);
    ProvisioningIsSound(m, types, pool, usage, batches);
    hide Inv, NoDuplicates, NoCommonPod, DecideAll, BatchesOf, MatchesPool, Buys, BinOf;
    forall d, p | d in DecideAll(m, types, pool, usage, batches).value.decisions && p in d.pods
      ensures Eligible(m, pool, p) && p in m.pending
    {
      var b :| 0 <= b < |batches| && Serves(m, types, batches[b], d);
      assert keys[b] in keys && batches[b] == groups[keys[b]];
      GroupMember(m, pool, m.pending, groups, keys[b], p);
    }
  }

  lemma GroupMember(
    m: Cluster, pool: NodePool, ids: seq<PodId>, groups: map<BatchKey, seq<PodId>>, key: BatchKey, p: PodId)
    requires Partitioned(m, pool, ids, groups) && key in groups && p in groups[key]
    ensures p in ids && Eligible(m, pool, p)
  {
    hide MatchesPool;
  }

  /** One provisioning pass; the order in which the groups are visited is open.
      `None` when the fast path's arithmetic overflows. */
  method Provision(state: ClusterState, types: seq<InstanceType>, pool: NodePool, usage: NodePoolUsage)
    returns (r: Option<Provisioned>, ghost keys: seq<BatchKey>)
    requires state.Valid()
    ensures var m := state.Model();
            var groups := BatchesOf(m, pool, m.pending);
            && NoDuplicates(keys) && (forall key :: key in keys ==> key in groups)
            && (r.Some? ==> Elements(keys) == groups.Keys)
            && r == DecideAll(m, types, pool, usage, InOrder(groups, keys))
  {
    hide Arena.Valid, DecideBatch, BatchesOf;
    ghost var m := state.Model();
    var groups := BatchPendingPods(state, pool);
    var left := groups.Keys;
    keys := [];
    var decisions, used := [], usage;
    assert InOrder(groups, keys) == [];
    while left != {}
      invariant state.Model() == m && left <= groups.Keys
      invariant NoDuplicates(keys) && Elements(keys) == groups.Keys - left
      invariant forall key :: key in keys ==> key in groups && key !in left
      invariant DecideAll(m, types, pool, usage, InOrder(groups, keys)) == Some(Provisioned(decisions, used))
    {
      var key :| key in left;
      NoDuplicatesConcat(keys, [key]);
      OneMoreGroup(groups, keys, key);
      var one := DecideOne(state, types, pool, used, groups[key]);
      keys, left := keys + [key], left - {key};
      if one.None? {
        return None, keys;
      }
      decisions, used := decisions + one.value.decisions, one.value.usage;
    }
    r := Some(Provisioned(decisions, used));
  }

  lemma OneMoreGroup(groups: map<BatchKey, seq<PodId>>, keys: seq<BatchKey>, key: BatchKey)
    requires (forall k :: k in keys ==> k in groups) && key in groups
    ensures InOrder(groups, keys + [key]) == InOrder(groups, keys) + [groups[key]]
    ensures InOrder(groups, keys + [key])[..|keys|] == InOrder(groups, keys)
    ensures Elements(keys + [key]) == Elements(keys) + {key}
  {
  }
}
