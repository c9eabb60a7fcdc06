/** The score plugins, min-max normalisation and the choice of the best node. */
module Scoring {
  import opened Types
  import opened Arenas
  import opened ClusterModel
  import opened ClusterStates
  import opened Topology
  import opened Filters

  datatype Scorer =
    | MostAllocated
    | LeastAllocated
    | BalancedAllocation
    | NodeAffinityScore
    | InterPodAffinityScore
    | TopologySpreadScore

  datatype Strategy = PackMost | PackLeast

  /** The scorers of a profile, in order, each with weight one. */
  function ScorersOf(strategy: Strategy): seq<Scorer> {
    [if strategy.PackMost? then MostAllocated else LeastAllocated,
     BalancedAllocation, NodeAffinityScore, InterPodAffinityScore, TopologySpreadScore]
  }

  // ----- Scores of the pod and the node alone -----

  /** Percentage used, rounded down; 0 of nothing. */
  function Percentage(used: nat, capacity: nat): int {
    if capacity > 0 then (used as real / capacity as real * 100.0).Floor else 0
  }

  function Utilisation(used: Resources, capacity: Resources): int {
    (Percentage(used.cpu, capacity.cpu) + Percentage(used.mem, capacity.mem)) / 2
  }

  function Fraction(used: nat, capacity: nat): real {
    if capacity > 0 then used as real / capacity as real else 0.0
  }

  function Balance(used: Resources, capacity: Resources): int {
    var d := Fraction(used.cpu, capacity.cpu) - Fraction(used.mem, capacity.mem);
    var balance := (1.0 - (if d < 0.0 then -d else d)) * 100.0;
    if balance < 0.0 then 0 else balance.Floor
  }

  /** Weights of the preferred node-affinity terms the node satisfies. */
  function NodeAffinityWeight(terms: seq<NodeAffinityTerm>, labels: Labels): int {
    if terms == [] then 0
    else
      var last := terms[|terms| - 1];
      NodeAffinityWeight(terms[..|terms| - 1], labels) +
      (if last.affinityType.Preferred? && Matches(labels, last.matchLabels) then last.affinityType.weight else 0)
  }

  function StaticScore(pod: Pod, node: Node, scorer: Scorer): int {
    var used := node.used.SaturatingAdd(pod.requests);
    match scorer
    case MostAllocated => Utilisation(used, node.allocatable)
    case LeastAllocated => 100 - Utilisation(used, node.allocatable)
    case BalancedAllocation => Balance(used, node.allocatable)
    case NodeAffinityScore => NodeAffinityWeight(pod.constraints.nodeAffinity, node.labels)
    case _ => 0
  }

  // ----- Scores that count pods in domains -----

  function AffinityTermScore(m: Cluster, node: Node, term: PodAffinityTerm): int {
    match Lookup(node.labels, term.topologyKey)
    case None => 0
    case Some(domain) =>
      if term.affinityType.Required? then 0
      else
        var weighted := |MatchingPods(m, term.topologyKey, domain, term.selector)| * term.affinityType.weight;
        if term.anti then -weighted else weighted
  }

  function AffinityScore(m: Cluster, terms: seq<PodAffinityTerm>, node: Node): int {
    if terms == [] then 0
    else AffinityScore(m, terms[..|terms| - 1], node) + AffinityTermScore(m, node, terms[|terms| - 1])
  }

  predicate SpreadScored(node: Node, c: SpreadConstraint) {
    c.whenUnsatisfiable.ScheduleAnyway? && Lookup(node.labels, c.topologyKey).Some?
  }

  ghost function SpreadTermSkew(m: Cluster, node: Node, c: SpreadConstraint): int {
    if !SpreadScored(node, c) then 0
    else
      var counts := DomainCounts(m, c.topologyKey, c.selector);
      Max(CountIn(counts, Lookup(node.labels, c.topologyKey).value) + 1 - MinCount(counts), 0)
  }

  ghost function TotalSkew(m: Cluster, constraints: seq<SpreadConstraint>, node: Node): int {
    if constraints == [] then 0
    else TotalSkew(m, constraints[..|constraints| - 1], node) + SpreadTermSkew(m, node, constraints[|constraints| - 1])
  }

  function ScoredConstraints(constraints: seq<SpreadConstraint>, node: Node): nat {
    if constraints == [] then 0
    else
      ScoredConstraints(constraints[..|constraints| - 1], node) +
      (if SpreadScored(node, constraints[|constraints| - 1]) then 1 else 0)
  }

  /** 100 less the average skew, capped at 100, rounded down. */
  function SpreadScoreOf(totalSkew: int, scored: nat): int {
    if scored == 0 then 0
    else
      var average := totalSkew as real / scored as real;
      (100.0 - (if average < 100.0 then average else 100.0)).Floor
  }

  ghost function Score(m: Cluster, pod: Pod, node: Node, scorer: Scorer): int {
    match scorer
    case InterPodAffinityScore => AffinityScore(m, pod.constraints.podAffinity, node)
    case TopologySpreadScore =>
      SpreadScoreOf(TotalSkew(m, pod.constraints.topologySpread, node),
                    ScoredConstraints(pod.constraints.topologySpread, node))
    case _ => StaticScore(pod, node, scorer)
  }

  // ----- Normalisation and choice -----

  function Smallest(s: seq<int>): int
    requires s != []
  {
    if |s| == 1 then s[0] else Min(Smallest(s[..|s| - 1]), s[|s| - 1])
  }

  function Largest(s: seq<int>): int
    requires s != []
  {
    if |s| == 1 then s[0] else Max(Largest(s[..|s| - 1]), s[|s| - 1])
  }

  function Scaled(score: int, min: int, max: int): int {
    if max > min then (score - min) * 100 / (max - min) else 100
  }

  /** Map [min, max] to [0, 100]; everything to 100 when the scores are equal. */
  function Normalize(raw: seq<int>): (scores: seq<int>)
    requires raw != []
    ensures |scores| == |raw|
  {
    var min, max := Smallest(raw), Largest(raw);
    seq(|raw|, i requires 0 <= i < |raw| => Scaled(raw[i], min, max))
  }

  function AddScores(a: seq<int>, b: seq<int>): (sum: seq<int>)
    requires |a| == |b|
    ensures |sum| == |a|
  {
    seq(|a|, i requires 0 <= i < |a| => a[i] + b[i])
  }

  ghost function RawScores(m: Cluster, pod: Pod, feasible: seq<NodeId>, scorer: Scorer): (raw: seq<int>)
    requires forall n :: n in feasible ==> m.HasNode(n)
    ensures |raw| == |feasible|
  {
    if feasible == [] then []
    else
      assert feasible[|feasible| - 1] in feasible;
      RawScores(m, pod, feasible[..|feasible| - 1], scorer) + [Score(m, pod, m.Node(feasible[|feasible| - 1]), scorer)]
  }

  /** The summed normalised scores of the feasible nodes. */
  ghost function Totals(m: Cluster, pod: Pod, feasible: seq<NodeId>, scorers: seq<Scorer>): (totals: seq<int>)
    requires feasible != [] && forall n :: n in feasible ==> m.HasNode(n)
    ensures |totals| == |feasible|
  {
    if scorers == [] then seq(|feasible|, _ => 0)
    else
      AddScores(Totals(m, pod, feasible, scorers[..|scorers| - 1]),
                Normalize(RawScores(m, pod, feasible, scorers[|scorers| - 1])))
  }

  /** `max_by_key`: the last of the largest. */
  function LastLargest(s: seq<int>): (i: nat)
    requires s != []
    ensures i < |s|
  {
    if |s| == 1 then 0
    else
      var i := LastLargest(s[..|s| - 1]);
      if s[|s| - 1] >= s[i] then |s| - 1 else i
  }

  lemma {:induction false} LastLargestFacts(s: seq<int>)
    requires s != []
    ensures forall k :: 0 <= k < |s| ==> s[k] <= s[LastLargest(s)]
    ensures forall k :: LastLargest(s) < k < |s| ==> s[k] < s[LastLargest(s)]
  {
    if |s| > 1 {
      LastLargestFacts(s[..|s| - 1]);
    }
  }

  // ----- What the totals respect -----

  lemma {:induction false} ExtremesBound(s: seq<int>)
    requires s != []
    ensures forall k :: 0 <= k < |s| ==> Smallest(s) <= s[k] <= Largest(s)
  {
    if |s| > 1 {
      ExtremesBound(s[..|s| - 1]);
    }
  }

  lemma QuotientMono(a: nat, b: nat, d: nat)
    requires a <= b && d >= 1
    ensures a / d <= b / d
  {
    var q, r := a / d, b / d;
    assert a == q * d + a % d && b == r * d + b % d;
    assert (r + 1) * d == r * d + d;
    if q > r {
      TimesMono(r + 1, q, d);
    }
  }

  lemma {:induction false} TimesMono(a: nat, b: nat, d: nat)
    requires a <= b
    ensures a * d <= b * d
    decreases d
  {
    if d > 0 {
      TimesMono(a, b, d - 1);
      assert a * d == a * (d - 1) + a && b * d == b * (d - 1) + b;
    }
  }

  lemma ScaledFacts(x: int, y: int, min: int, max: int)
    requires min <= x <= y <= max
    ensures 0 <= Scaled(x, min, max) <= Scaled(y, min, max) <= 100
  {
    if max > min {
      var d := max - min;
      QuotientMono(0, (x - min) * 100, d);
      QuotientMono((x - min) * 100, (y - min) * 100, d);
      QuotientMono((y - min) * 100, 100 * d, d);
      assert 100 * d / d == 100;
    }
  }

  /** Normalised scores lie between 0 and 100, in the order of the raw ones. */
  lemma NormalizeFacts(raw: seq<int>, i: nat, j: nat)
    requires i < |raw| && j < |raw| && raw[i] <= raw[j]
    ensures 0 <= Normalize(raw)[i] <= Normalize(raw)[j] <= 100
  {
    ExtremesBound(raw);
    hide Smallest, Largest, Scaled;
    ScaledFacts(raw[i], raw[j], Smallest(raw), Largest(raw));
  }

  lemma {:induction false} RawScoresAt(m: Cluster, pod: Pod, feasible: seq<NodeId>, scorer: Scorer, k: nat)
    requires (forall n :: n in feasible ==> m.HasNode(n)) && k < |feasible|
    ensures m.HasNode(feasible[k])
    ensures RawScores(m, pod, feasible, scorer)[k] == Score(m, pod, m.Node(feasible[k]), scorer)
  {
    hide Score;
    assert feasible[k] in feasible;
    if k < |feasible| - 1 {
      RawScoresAt(m, pod, feasible[..|feasible| - 1], scorer, k);
    }
  }

  /** Under every one of the scorers the node scores at most as much as the other. */
  ghost predicate ScoresAtMost(m: Cluster, pod: Pod, scorers: seq<Scorer>, node: Node, other: Node) {
    forall scorer :: scorer in scorers ==> Score(m, pod, node, scorer) <= Score(m, pod, other, scorer)
  }

  /** Totals respect the scorers: a node that is nowhere better totals no more. */
  lemma {:induction false} TotalsRespectScores(
    m: Cluster, pod: Pod, feasible: seq<NodeId>, scorers: seq<Scorer>, i: nat, j: nat)
    requires feasible != [] && (forall n :: n in feasible ==> m.HasNode(n)) && i < |feasible| && j < |feasible|
    requires ScoresAtMost(m, pod, scorers, m.Node(feasible[i]), m.Node(feasible[j]))
    ensures Totals(m, pod, feasible, scorers)[i] <= Totals(m, pod, feasible, scorers)[j]
    ensures 0 <= Totals(m, pod, feasible, scorers)[i] <= 100 * |scorers|
  {
    hide Score, Normalize, RawScores;
    if scorers != [] {
      var front, last := scorers[..|scorers| - 1], scorers[|scorers| - 1];
      assert last in scorers;
      TotalsRespectScores(m, pod, feasible, front, i, j);
      RawScoresAt(m, pod, feasible, last, i);
      RawScoresAt(m, pod, feasible, last, j);
      NormalizeFacts(RawScores(m, pod, feasible, last), i, j);
    }
  }

  /** A node that a later one matches or beats under every scorer is not chosen. */
  lemma DominatedIsNotChosen(m: Cluster, pod: Pod, feasible: seq<NodeId>, scorers: seq<Scorer>, i: nat, j: nat)
    requires feasible != [] && (forall n :: n in feasible ==> m.HasNode(n)) && i < j < |feasible|
    requires ScoresAtMost(m, pod, scorers, m.Node(feasible[i]), m.Node(feasible[j]))
    ensures LastLargest(Totals(m, pod, feasible, scorers)) != i
  {
    hide ScoresAtMost, Totals, LastLargest;
    TotalsRespectScores(m, pod, feasible, scorers, i, j);
    LastLargestFacts(Totals(m, pod, feasible, scorers));
  }

  // ----- Computing the scores without caches -----

  method ScoreAffinity(state: ClusterState, pod: Pod, node: Node) returns (score: int)
    requires state.Valid() && Inv(state.Model())
    ensures score == AffinityScore(state.Model(), pod.constraints.podAffinity, node)
  {
    hide Arena.Valid, Inv;
    ghost var m := state.Model();
    var terms := pod.constraints.podAffinity;
    score := 0;
    for i := 0 to |terms|
      invariant state.Model() == m
      invariant score == AffinityScore(m, terms[..i], node)
    {
      assert terms[..i + 1][..i] == terms[..i];
      var term := terms[i];
      var domain := Lookup(node.labels, term.topologyKey);
      if term.affinityType.Preferred? && domain.Some? {
        var count := CountMatchingPods(state, term.topologyKey, domain.value, term.selector);
        score := if term.anti then score - count * term.affinityType.weight
          else score + count * term.affinityType.weight;
      }
    }
    assert terms[..|terms|] == terms;
  }

  method ScoreSpread(state: ClusterState, pod: Pod, node: Node) returns (score: int)
    requires state.Valid()
    ensures score == Score(state.Model(), pod, node, TopologySpreadScore)
  {
    hide Arena.Valid;
    ghost var m := state.Model();
    var constraints := pod.constraints.topologySpread;
    var total, scored := 0, 0;
    for i := 0 to |constraints|
      invariant state.Model() == m
      invariant total == TotalSkew(m, constraints[..i], node) && scored == ScoredConstraints(constraints[..i], node)
    {
      assert constraints[..i + 1][..i] == constraints[..i];
      var c := constraints[i];
      if SpreadScored(node, c) {
        var counts := CountDomains(state, c.topologyKey, c.selector);
        var min := SmallestCount(counts);
        total := total + Max(CountIn(counts, Lookup(node.labels, c.topologyKey).value) + 1 - min, 0);
        scored := scored + 1;
      }
    }
    assert constraints[..|constraints|] == constraints;
    score := SpreadScoreOf(total, scored);
  }

  method ScoreNode(state: ClusterState, pod: Pod, node: Node, scorer: Scorer) returns (score: int)
    requires state.Valid() && Inv(state.Model())
    ensures score == Score(state.Model(), pod, node, scorer)
  {
    hide Arena.Valid, Inv;
    if scorer == InterPodAffinityScore {
      score := ScoreAffinity(state, pod, node);
    } else if scorer == TopologySpreadScore {
      score := ScoreSpread(state, pod, node);
    } else {
      score := StaticScore(pod, node, scorer);
    }
  }
}
