/** Scheduling one pod: filter, score, select, and preempt when nothing is feasible. */
module Scheduling {
  import opened Types
  import opened Arenas
  import opened ClusterModel
  import opened ClusterStates
  import opened Filters
  import opened Scoring
  import opened Preemption

  datatype Reason = PodNotFound | NoFeasibleNode | NoReadyNodes

  datatype ScheduleResult =
    | BoundTo(node: NodeId)
    | Preempted(node: NodeId, victims: seq<PodId>)
    | Unschedulable(reason: Reason)

  ghost predicate IsFeasible(m: Cluster, pod: Pod, n: NodeId) {
    m.HasNode(n) && m.Node(n).Schedulable() && PassesFilters(m, pod, m.Node(n))
  }

  /** Feasible nodes in iteration order. */
  ghost function Feasible(m: Cluster, pod: Pod, ids: seq<NodeId>): seq<NodeId> {
    if ids == [] then []
    else Feasible(m, pod, ids[..|ids| - 1]) + (if IsFeasible(m, pod, ids[|ids| - 1]) then [ids[|ids| - 1]] else [])
  }

  /** Some schedulable node was turned down by a filter. */
  ghost predicate AnyRejected(m: Cluster, pod: Pod, ids: seq<NodeId>) {
    exists n :: n in ids && m.HasNode(n) && m.Node(n).Schedulable() && !IsFeasible(m, pod, n)
  }

  lemma {:induction false} FeasibleFacts(m: Cluster, pod: Pod, ids: seq<NodeId>)
    ensures forall n :: n in Feasible(m, pod, ids) <==> n in ids && IsFeasible(m, pod, n)
  {
    if ids != [] {
      FeasibleFacts(m, pod, ids[..|ids| - 1]);
      assert ids == ids[..|ids| - 1] + [ids[|ids| - 1]];
    }
  }

  /** The last of the best-scored feasible nodes. */
  ghost function Select(m: Cluster, pod: Pod, feasible: seq<NodeId>, strategy: Strategy): NodeId
    requires feasible != [] && forall n :: n in feasible ==> m.HasNode(n)
  {
    feasible[LastLargest(Totals(m, pod, feasible, ScorersOf(strategy)))]
  }

  ghost function SchedulePod(m: Cluster, pod: Pod, strategy: Strategy): ScheduleResult
    requires Consistent(m.nodes)
  {
    var ids := Order(m.nodes);
    var feasible := Feasible(m, pod, ids);
    FeasibleFacts(m, pod, ids);
    if feasible != [] then BoundTo(Select(m, pod, feasible, strategy))
    else
      match EvaluatePreemption(m, pod)
      case Some(c) => Preempted(c.node, c.victims)
      case None => Unschedulable(if AnyRejected(m, pod, ids) then NoFeasibleNode else NoReadyNodes)
  }

  ghost function ScheduleOne(m: Cluster, p: PodId, strategy: Strategy): ScheduleResult
    requires Consistent(m.nodes)
  {
    if m.HasPod(p) then SchedulePod(m, m.Pod(p), strategy) else Unschedulable(PodNotFound)
  }

  /** A pod is bound exactly when some live node is feasible, and then to a feasible one. */
  lemma BoundIsFeasible(m: Cluster, pod: Pod, strategy: Strategy)
    requires Consistent(m.nodes)
    ensures SchedulePod(m, pod, strategy).BoundTo? <==> exists n :: IsFeasible(m, pod, n)
    ensures SchedulePod(m, pod, strategy).BoundTo? ==> IsFeasible(m, pod, SchedulePod(m, pod, strategy).node)
  {
    hide IsFeasible, Totals;
    var ids := Order(m.nodes);
    OrderFacts(m.nodes);
    FeasibleFacts(m, pod, ids);
    var feasible := Feasible(m, pod, ids);
    if feasible != [] {
      assert Select(m, pod, feasible, strategy) in feasible;
    }
    forall n | IsFeasible(m, pod, n)
      ensures n in feasible
    {
      FeasibleIsLive(m, pod, n);
    }
  }

  lemma FeasibleIsLive(m: Cluster, pod: Pod, n: NodeId)
    requires IsFeasible(m, pod, n)
    ensures m.HasNode(n)
  {
  }

  /** The node fits the pod as it is, or is the preemption chosen for it. */
  ghost predicate Justified(m: Cluster, p: PodId, r: ScheduleResult)
    requires Consistent(m.nodes)
  {
    match r
    case BoundTo(n) => m.HasPod(p) && m.HasNode(n) && FitsResources(m.Pod(p), m.Node(n))
    case Preempted(n, victims) =>
      && m.HasPod(p)
      && EvaluatePreemption(m, m.Pod(p)).Some?
      && EvaluatePreemption(m, m.Pod(p)).value.node == n
      && EvaluatePreemption(m, m.Pod(p)).value.victims == victims
    case Unschedulable(_) => true
  }

  lemma ScheduleIsJustified(m: Cluster, p: PodId, strategy: Strategy)
    requires Consistent(m.nodes)
    ensures Justified(m, p, ScheduleOne(m, p, strategy))
  {
    if m.HasPod(p) {
      BoundIsFeasible(m, m.Pod(p), strategy);
    }
  }

  // ----- The loops, without caches -----

  method FeasibleNodes(state: ClusterState, pod: Pod) returns (feasible: seq<NodeId>, anyRejected: bool)
    requires state.Valid() && Inv(state.Model())
    ensures feasible == Feasible(state.Model(), pod, Order(state.Model().nodes))
    ensures anyRejected == AnyRejected(state.Model(), pod, Order(state.Model().nodes))
  {
    hide Arena.Valid, Inv, PassesFilters;
    ghost var m := state.Model();
    feasible, anyRejected := [], false;
    var nodeIds := state.nodes.Handles();
    for i := 0 to |nodeIds|
      invariant state.Model() == m
      invariant feasible == Feasible(m, pod, nodeIds[..i])
      invariant anyRejected <==>
                exists k :: 0 <= k < i && m.HasNode(nodeIds[k]) && m.Node(nodeIds[k]).Schedulable() &&
                  !IsFeasible(m, pod, nodeIds[k])
    {
      assert nodeIds[i] in nodeIds && nodeIds[..i + 1][..i] == nodeIds[..i];
      var node := state.nodes.Find(nodeIds[i]);
      if node.value.Schedulable() {
        var pass := FilterAll(state, pod, node.value);
        assert pass == IsFeasible(m, pod, nodeIds[i]);
        if pass {
          feasible := feasible + [nodeIds[i]];
        } else {
          anyRejected := true;
        }
      }
    }
    assert nodeIds[..|nodeIds|] == nodeIds;
  }

  method RawScoresOf(state: ClusterState, pod: Pod, feasible: seq<NodeId>, scorer: Scorer) returns (raw: seq<int>)
    requires state.Valid() && Inv(state.Model())
    requires forall n :: n in feasible ==> state.Model().HasNode(n)
    ensures raw == RawScores(state.Model(), pod, feasible, scorer)
  {
    hide Arena.Valid, Inv, Score;
    ghost var m := state.Model();
    raw := [];
    for i := 0 to |feasible|
      invariant state.Model() == m
      invariant forall n :: n in feasible[..i] ==> m.HasNode(n)
      invariant raw == RawScores(m, pod, feasible[..i], scorer)
    {
      assert feasible[i] in feasible && feasible[..i + 1][..i] == feasible[..i];
      var node := state.nodes.Find(feasible[i]);
      var score := ScoreNode(state, pod, node.value, scorer);
      raw := raw + [score];
    }
    assert feasible[..|feasible|] == feasible;
  }

  method SelectNode(state: ClusterState, pod: Pod, feasible: seq<NodeId>, strategy: Strategy) returns (best: NodeId)
    requires state.Valid() && Inv(state.Model())
    requires feasible != [] && forall n :: n in feasible ==> state.Model().HasNode(n)
    ensures best == Select(state.Model(), pod, feasible, strategy)
  {
    hide Arena.Valid, Inv, Normalize, AddScores, RawScores;
    ghost var m := state.Model();
    var scorers := ScorersOf(strategy);
    var totals := seq(|feasible|, _ => 0);
    for i := 0 to |scorers|
      invariant state.Model() == m
      invariant totals == Totals(m, pod, feasible, scorers[..i])
    {
      assert scorers[..i + 1][..i] == scorers[..i];
      var raw := RawScoresOf(state, pod, feasible, scorers[i]);
      totals := AddScores(totals, Normalize(raw));
    }
    assert scorers[..|scorers|] == scorers;
    best := feasible[LastLargest(totals)];
  }

  method ScheduleOneUncached(state: ClusterState, p: PodId, strategy: Strategy) returns (r: ScheduleResult)
    requires state.Valid() && Inv(state.Model())
    ensures r == ScheduleOne(state.Model(), p, strategy)
  {
    hide Arena.Valid, IsFeasible, AnyRejected, EvaluatePreemption, Select;
    ghost var m := state.Model();
    var found := state.pods.Find(p);
    if found.None? {
      return Unschedulable(PodNotFound);
    }
    var pod := found.value;
    var feasible, anyRejected := FeasibleNodes(state, pod);
    FeasibleFacts(m, pod, Order(m.nodes));
    OrderFacts(m.nodes);
    if feasible == [] {
      var candidate := FindPreemption(state, pod);
      if candidate.Some? {
        return Preempted(candidate.value.node, candidate.value.victims);
      }
      return Unschedulable(if anyRejected then NoFeasibleNode else NoReadyNodes);
    }
    var best := SelectNode(state, pod, feasible, strategy);
    r := BoundTo(best);
  }
}
