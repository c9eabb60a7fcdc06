/** Greedy preemption: the fewest, lowest-priority victims on the best node. */
module Preemption {
  import opened Types
  import opened Sequences
  import opened Arenas
  import opened ClusterModel
  import opened ClusterStates
  import opened Filters
  import opened DisruptionBudgets

  // ----- Victims on one node -----

  function PriorityOf(m: Cluster, p: PodId): int {
    if m.HasPod(p) then m.Pod(p).priority else 0
  }

  function ByPriority(m: Cluster): (PodId, PodId) -> bool {
    (a: PodId, b: PodId) => PriorityOf(m, a) <= PriorityOf(m, b)
  }

  /** Listed pods of lower priority than the preemptor, in list order. */
  function LowerPriority(m: Cluster, priority: int, ids: seq<PodId>): seq<PodId> {
    if ids == [] then []
    else
      var last := ids[|ids| - 1];
      LowerPriority(m, priority, ids[..|ids| - 1]) +
      (if m.HasPod(last) && m.Pod(last).priority < priority then [last] else [])
  }

  /** Candidate victims, lowest priority first. */
  function Candidates(m: Cluster, pod: Pod, node: Node): seq<PodId> {
    StableSort(LowerPriority(m, pod.priority, node.pods), ByPriority(m))
  }

  /** What is free after evicting the listed pods, as the loop accumulates it. */
  function FreedBy(m: Cluster, available: Resources, victims: seq<PodId>): Resources {
    if victims == [] then available
    else FreedBy(m, available, victims[..|victims| - 1]).SaturatingAdd(RequestOf(m.pods.live, victims[|victims| - 1]))
  }

  /** The shortest prefix of at least `k` candidates that frees enough. */
  function FirstEnough(
    m: Cluster, needed: Resources, available: Resources, candidates: seq<PodId>, k: nat): Option<seq<PodId>>
    requires k <= |candidates|
    decreases |candidates| - k
  {
    if needed.FitsIn(FreedBy(m, available, candidates[..k])) then Some(candidates[..k])
    else if k == |candidates| then None
    else FirstEnough(m, needed, available, candidates, k + 1)
  }

  /** The victims on a node; none at all when the pod already fits. */
  function Victims(m: Cluster, pod: Pod, node: Node): Option<seq<PodId>> {
    FirstEnough(m, pod.requests, node.Available(), Candidates(m, pod, node), 0)
  }

  lemma {:induction false} LowerPriorityFacts(m: Cluster, priority: int, ids: seq<PodId>)
    ensures forall p :: p in LowerPriority(m, priority, ids) <==>
              p in ids && m.HasPod(p) && m.Pod(p).priority < priority
    ensures NoDuplicates(ids) ==> NoDuplicates(LowerPriority(m, priority, ids))
  {
    if ids != [] {
      var front, last := ids[..|ids| - 1], ids[|ids| - 1];
      LowerPriorityFacts(m, priority, front);
      assert ids == front + [last];
      assert NoDuplicates(ids) ==> last !in front;
    }
  }

  lemma CandidatesFacts(m: Cluster, pod: Pod, node: Node)
    ensures forall p :: p in Candidates(m, pod, node) <==>
              p in node.pods && m.HasPod(p) && m.Pod(p).priority < pod.priority
    ensures SortedBy(Candidates(m, pod, node), ByPriority(m))
    ensures NoDuplicates(node.pods) ==> NoDuplicates(Candidates(m, pod, node))
  {
    var lower := LowerPriority(m, pod.priority, node.pods);
    LowerPriorityFacts(m, pod.priority, node.pods);
    StableSortSorts(lower, ByPriority(m));
    PermutationFacts(Candidates(m, pod, node), lower);
  }

  lemma {:induction false} FirstEnoughFacts(
    m: Cluster, needed: Resources, available: Resources, candidates: seq<PodId>, k: nat)
    requires k <= |candidates|
    ensures match FirstEnough(m, needed, available, candidates, k)
            case Some(v) =>
              && k <= |v| && v <= candidates && needed.FitsIn(FreedBy(m, available, v))
              && (forall j :: k <= j < |v| ==> !needed.FitsIn(FreedBy(m, available, candidates[..j])))
            case None => forall j :: k <= j <= |candidates| ==> !needed.FitsIn(FreedBy(m, available, candidates[..j]))
    decreases |candidates| - k
  {
    if !needed.FitsIn(FreedBy(m, available, candidates[..k])) && k < |candidates| {
      FirstEnoughFacts(m, needed, available, candidates, k + 1);
    }
  }

  /** Victims are lower-priority pods of the node, none is passed over for one
      of higher priority, they free enough, and no shorter prefix does. Without
      a victim set, not even evicting every candidate is enough. */
  lemma VictimsFacts(m: Cluster, pod: Pod, node: Node)
    ensures match Victims(m, pod, node)
            case Some(v) =>
              && (forall p :: p in v ==> p in node.pods && m.HasPod(p) && m.Pod(p).priority < pod.priority)
              && (forall p, q :: p in v && q in Candidates(m, pod, node) && q !in v ==>
                  PriorityOf(m, p) <= PriorityOf(m, q))
              && v <= Candidates(m, pod, node)
              && (NoDuplicates(node.pods) ==> NoDuplicates(v))
              && pod.requests.FitsIn(FreedBy(m, node.Available(), v))
              && (forall j :: 0 <= j < |v| ==> !pod.requests.FitsIn(FreedBy(m, node.Available(), v[..j])))
            case None =>
              forall j :: 0 <= j <= |Candidates(m, pod, node)| ==>
                !pod.requests.FitsIn(FreedBy(m, node.Available(), Candidates(m, pod, node)[..j]))
  {
    var candidates := Candidates(m, pod, node);
    CandidatesFacts(m, pod, node);
    FirstEnoughFacts(m, pod.requests, node.Available(), candidates, 0);
    match Victims(m, pod, node)
    case None =>
    case Some(v) =>
      forall p, q | p in v && q in candidates && q !in v
        ensures PriorityOf(m, p) <= PriorityOf(m, q)
      {
        var i :| 0 <= i < |v| && v[i] == p;
        var j :| 0 <= j < |candidates| && candidates[j] == q;
        assert ByPriority(m)(candidates[i], candidates[j]);
      }
      forall j | 0 <= j < |v|
        ensures !pod.requests.FitsIn(FreedBy(m, node.Available(), v[..j]))
      {
        assert candidates[..j] == v[..j];
      }
  }

  method FindVictims(state: ClusterState, pod: Pod, node: Node) returns (victims: Option<seq<PodId>>)
    requires state.Valid()
    ensures victims == Victims(state.Model(), pod, node)
  {
    hide Arena.Valid;
    ghost var m := state.Model();
    var lower: seq<PodId> := [];
    for i := 0 to |node.pods|
      invariant state.Model() == m
      invariant lower == LowerPriority(m, pod.priority, node.pods[..i])
    {
      var p := state.pods.Find(node.pods[i]);
      assert node.pods[..i + 1][..i] == node.pods[..i];
      if p.Some? && p.value.priority < pod.priority {
        lower := lower + [node.pods[i]];
      }
    }
    assert node.pods[..|node.pods|] == node.pods;
    var candidates := SortByPriority(state, lower);
    var available := node.Available();
    if pod.requests.FitsIn(available) {
      return Some([]);
    }
    var freed := available;
    for i := 0 to |candidates|
      invariant state.Model() == m
      invariant freed == FreedBy(m, available, candidates[..i]) && !pod.requests.FitsIn(freed)
      invariant Victims(m, pod, node) == FirstEnough(m, pod.requests, available, candidates, i)
    {
      var p := state.pods.Find(candidates[i]);
      assert candidates[..i + 1][..i] == candidates[..i];
      freed := freed.SaturatingAdd(if p.Some? then p.value.requests else NO_RESOURCES);
      if pod.requests.FitsIn(freed) {
        return Some(candidates[..i + 1]);
      }
    }
    victims := None;
  }

  /** The priorities of the listed pods, as the sort keys are read. */
  method ReadPriorities(state: ClusterState, ids: seq<PodId>) returns (priorities: map<PodId, int>)
    requires state.Valid()
    ensures forall p :: p in ids ==> p in priorities && priorities[p] == PriorityOf(state.Model(), p)
  {
    hide Arena.Valid;
    ghost var m := state.Model();
    priorities := map[];
    for i := 0 to |ids|
      invariant state.Model() == m
      invariant forall k :: 0 <= k < i ==> ids[k] in priorities
      invariant forall p :: p in priorities ==> priorities[p] == PriorityOf(m, p)
    {
      var pod := state.pods.Find(ids[i]);
      priorities := priorities[ids[i] := if pod.Some? then pod.value.priority else 0];
    }
  }

  /** `sort_by_key` on the priority. */
  method SortByPriority(state: ClusterState, ids: seq<PodId>) returns (sorted: seq<PodId>)
    requires state.Valid()
    ensures sorted == StableSort(ids, ByPriority(state.Model()))
  {
    hide Arena.Valid;
    var priorities := ReadPriorities(state, ids);
    var le := (a: PodId, b: PodId) => a in priorities && b in priorities && priorities[a] <= priorities[b];
    StableSortSame(ids, le, ByPriority(state.Model()));
    sorted := StableSort(ids, le);
  }

  // ----- Budget violations -----

  function CountMatching(m: Cluster, ids: seq<PodId>, selector: Labels): nat {
    if ids == [] then 0
    else
      var last := ids[|ids| - 1];
      CountMatching(m, ids[..|ids| - 1], selector) +
      (if m.HasPod(last) && Matches(m.Pod(last).labels, selector) then 1 else 0)
  }

  predicate Violates(m: Cluster, victims: seq<PodId>, pdb: PodDisruptionBudget) {
    MonusNat(|RunningMatching(m, pdb.selector)|, CountMatching(m, victims, pdb.selector)) < pdb.minAvailable
  }

  /** How many budgets the victims would break. */
  function PdbViolations(m: Cluster, victims: seq<PodId>, pdbs: seq<PodDisruptionBudget>): nat {
    if pdbs == [] then 0
    else PdbViolations(m, victims, pdbs[..|pdbs| - 1]) + (if Violates(m, victims, pdbs[|pdbs| - 1]) then 1 else 0)
  }

  method CountPdbViolations(state: ClusterState, victims: seq<PodId>) returns (violations: nat)
    requires state.Valid()
    ensures violations == PdbViolations(state.Model(), victims, state.pdbs)
  {
    hide Arena.Valid;
    ghost var m := state.Model();
    violations := 0;
    for i := 0 to |state.pdbs|
      invariant state.Model() == m
      invariant violations == PdbViolations(m, victims, state.pdbs[..i])
    {
      var pdb := state.pdbs[i];
      assert state.pdbs[..i + 1][..i] == state.pdbs[..i];
      var total := CountRunningMatching(state, pdb.selector);
      var matching := 0;
      for j := 0 to |victims|
        invariant state.Model() == m
        invariant matching == CountMatching(m, victims[..j], pdb.selector)
      {
        assert victims[..j + 1][..j] == victims[..j];
        var p := state.pods.Find(victims[j]);
        if p.Some? && Matches(p.value.labels, pdb.selector) {
          matching := matching + 1;
        }
      }
      assert victims[..|victims|] == victims;
      if MonusNat(total, matching) < pdb.minAvailable {
        violations := violations + 1;
      }
    }
    assert state.pdbs[..|state.pdbs|] == state.pdbs;
  }

  // ----- The best node -----

  datatype Candidate = Candidate(node: NodeId, victims: seq<PodId>, violations: nat)

  function PrioritySum(m: Cluster, ids: seq<PodId>): int {
    if ids == [] then 0 else PrioritySum(m, ids[..|ids| - 1]) + PriorityOf(m, ids[|ids| - 1])
  }

  /** Strictly better: fewer violations, then fewer victims, then a smaller priority sum. */
  predicate Better(m: Cluster, a: Candidate, b: Candidate) {
    || a.violations < b.violations
    || (a.violations == b.violations && |a.victims| < |b.victims|)
    || (a.violations == b.violations && |a.victims| == |b.victims| &&
        PrioritySum(m, a.victims) < PrioritySum(m, b.victims))
  }

  /** What a node offers: it must take pods, pass every other filter and be able to free enough. */
  ghost function CandidateOn(m: Cluster, pod: Pod, n: NodeId): Option<Candidate>
    requires m.HasNode(n)
  {
    var node := m.Node(n);
    if !node.Schedulable() || !PassesOtherFilters(m, pod, node) then None
    else
      match Victims(m, pod, node)
      case None => None
      case Some(victims) => Some(Candidate(n, victims, PdbViolations(m, victims, m.pdbs)))
  }

  ghost function Choose(m: Cluster, best: Option<Candidate>, offer: Option<Candidate>): Option<Candidate> {
    if offer.Some? && (best.None? || Better(m, offer.value, best.value)) then offer else best
  }

  /** The best offer of the nodes in iteration order; the first of equals wins. */
  ghost function BestAmong(m: Cluster, pod: Pod, ids: seq<NodeId>): Option<Candidate>
    requires forall n :: n in ids ==> m.HasNode(n)
  {
    if ids == [] then None
    else
      assert ids[|ids| - 1] in ids;
      Choose(m, BestAmong(m, pod, ids[..|ids| - 1]), CandidateOn(m, pod, ids[|ids| - 1]))
  }

  lemma {:induction false} BestAmongFacts(m: Cluster, pod: Pod, ids: seq<NodeId>)
    requires forall n :: n in ids ==> m.HasNode(n)
    ensures match BestAmong(m, pod, ids)
            case None => forall n :: n in ids ==> CandidateOn(m, pod, n).None?
            case Some(c) =>
              && c.node in ids && CandidateOn(m, pod, c.node) == Some(c)
              && (forall n :: n in ids && CandidateOn(m, pod, n).Some? ==> !Better(m, CandidateOn(m, pod, n).value, c))
  {
    if ids != [] {
      var front, last := ids[..|ids| - 1], ids[|ids| - 1];
      assert ids == front + [last];
      assert last in ids;
      BestAmongFacts(m, pod, front);
    }
  }

  ghost function EvaluatePreemption(m: Cluster, pod: Pod): Option<Candidate>
    requires Consistent(m.nodes)
  {
    OrderFacts(m.nodes);
    BestAmong(m, pod, Order(m.nodes))
  }

  /** Preemption picks, among the live nodes that take pods, pass every other
      filter and can free enough, one that nothing beats on (violations,
      victims, priority sum); it finds none exactly when there is no such node. */
  lemma PreemptionIsBest(m: Cluster, pod: Pod)
    requires Consistent(m.nodes)
    ensures match EvaluatePreemption(m, pod)
            case None => forall n :: m.HasNode(n) ==> CandidateOn(m, pod, n).None?
            case Some(c) =>
              && m.HasNode(c.node) && CandidateOn(m, pod, c.node) == Some(c)
              && (forall n :: m.HasNode(n) && CandidateOn(m, pod, n).Some? ==>
                  !Better(m, CandidateOn(m, pod, n).value, c))
  {
    OrderFacts(m.nodes);
    BestAmongFacts(m, pod, Order(m.nodes));
  }

  method SumPriorities(state: ClusterState, ids: seq<PodId>) returns (sum: int)
    requires state.Valid()
    ensures sum == PrioritySum(state.Model(), ids)
  {
    hide Arena.Valid;
    ghost var m := state.Model();
    sum := 0;
    for i := 0 to |ids|
      invariant state.Model() == m
      invariant sum == PrioritySum(m, ids[..i])
    {
      assert ids[..i + 1][..i] == ids[..i];
      var p := state.pods.Find(ids[i]);
      if p.Some? {
        sum := sum + p.value.priority;
      }
    }
    assert ids[..|ids|] == ids;
  }

  method Offer(state: ClusterState, pod: Pod, n: NodeId) returns (offer: Option<Candidate>)
    requires state.Valid() && Inv(state.Model()) && state.Model().HasNode(n)
    ensures offer == CandidateOn(state.Model(), pod, n)
  {
    hide Arena.Valid, Inv, PassesOtherFilters;
    ghost var m := state.Model();
    offer := None;
    var node := state.nodes.Find(n);
    if node.value.Schedulable() {
      var pass := FilterOthers(state, pod, node.value);
      if pass {
        var victims := FindVictims(state, pod, node.value);
        if victims.Some? {
          var violations := CountPdbViolations(state, victims.value);
          assert state.Model() == m;
          offer := Some(Candidate(n, victims.value, violations));
        }
      }
    }
  }

  method FindPreemption(state: ClusterState, pod: Pod) returns (best: Option<Candidate>)
    requires state.Valid() && Inv(state.Model())
    ensures best == EvaluatePreemption(state.Model(), pod)
  {
    hide Arena.Valid, CandidateOn;
    ghost var m := state.Model();
    best := None;
    var nodeIds := state.nodes.Handles();
    for i := 0 to |nodeIds|
      invariant state.Model() == m
      invariant forall n :: n in nodeIds[..i] ==> m.HasNode(n)
      invariant best == BestAmong(m, pod, nodeIds[..i])
    {
      assert nodeIds[i] in nodeIds && nodeIds[..i + 1][..i] == nodeIds[..i];
      assert forall n :: n in nodeIds[..i + 1] ==> n in nodeIds;
      var offer := Offer(state, pod, nodeIds[i]);
      if offer.Some? {
        var better := best.None?;
        if best.Some? {
          var offered := SumPriorities(state, offer.value.victims);
          var current := SumPriorities(state, best.value.victims);
          better :=
            || offer.value.violations < best.value.violations
            || (offer.value.violations == best.value.violations && |offer.value.victims| < |best.value.victims|)
            || (offer.value.violations == best.value.violations && |offer.value.victims| == |best.value.victims| &&
                offered < current);
        }
        if better {
          best := offer;
        }
      }
    }
    assert nodeIds[..|nodeIds|] == nodeIds;
  }
}
