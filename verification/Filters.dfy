/** The scheduler's filter plugins: what each accepts, and the loops that decide it. */
module Filters {
  import opened Types
  import opened Arenas
  import opened ClusterModel
  import opened ClusterStates
  import opened Topology

  // ----- Filters that only look at the pod and the node -----

  predicate FitsResources(pod: Pod, node: Node) {
    pod.requests.FitsIn(node.Available())
  }

  predicate ToleratesTaints(pod: Pod, node: Node) {
    forall taint | taint in node.taints :: exists t | t in pod.constraints.tolerations :: t.Tolerates(taint)
  }

  predicate MatchesNodeAffinity(pod: Pod, node: Node) {
    forall term | term in pod.constraints.nodeAffinity ::
      term.affinityType.Required? ==> Matches(node.labels, term.matchLabels)
  }

  // ----- Inter-pod affinity -----

  /** A required term wants a matching pod in the node's domain; an
      anti-affinity term wants none. A node outside every domain satisfies
      anti-affinity only. */
  predicate AffinityAllows(m: Cluster, node: Node, term: PodAffinityTerm) {
    match Lookup(node.labels, term.topologyKey)
    case None => term.anti
    case Some(domain) => (MatchingPods(m, term.topologyKey, domain, term.selector) != {}) == !term.anti
  }

  predicate PassesAffinity(m: Cluster, pod: Pod, node: Node) {
    forall term | term in pod.constraints.podAffinity :: term.affinityType.Required? ==> AffinityAllows(m, node, term)
  }

  // ----- Topology spread -----

  /** `x as i32` for a 32-bit unsigned `x`. */
  function AsI32(x: nat): int {
    if x < 0x8000_0000 then x else x - 0x1_0000_0000
  }

  function CountIn(counts: map<string, int>, domain: string): int {
    if domain in counts then counts[domain] else 0
  }

  /** Counts after the pod lands, for the domains that share its count. */
  function Raised(counts: map<string, int>, mine: int): map<string, int> {
    map d | d in counts :: if counts[d] == mine then Min(mine + 1, counts[d]) else counts[d]
  }

  ghost function NewMin(counts: map<string, int>, mine: int): int {
    if mine != MinCount(counts) then MinCount(counts)
    else if counts == map[] then mine + 1
    else MinCount(Raised(counts, mine))
  }

  /** The skew the uncached filter computes for one more pod in the domain. */
  ghost function UncachedSkew(counts: map<string, int>, domain: string): int {
    var mine := CountIn(counts, domain);
    mine + 1 - NewMin(counts, mine)
  }

  /** The skew the cached filter computes from a remembered minimum. */
  function CachedSkew(counts: map<string, int>, cachedMin: int, domain: string): int {
    var mine := CountIn(counts, domain);
    var min := if domain in counts then cachedMin else 0;
    if mine == min then 0 else mine + 1 - min
  }

  /** Raising changes no count, so the skew is the new count less the old minimum. */
  lemma UncachedSkewIs(counts: map<string, int>, domain: string)
    requires domain in counts
    ensures UncachedSkew(counts, domain) == counts[domain] + 1 - MinCount(counts)
    ensures MinCount(counts) <= counts[domain]
  {
    assert Raised(counts, counts[domain]) == counts;
  }

  /** A skew computed from a minimum that is at most the true one is never
      accepted where the true skew is rejected. */
  lemma LowMinimumIsSafe(counts: map<string, int>, cachedMin: int, domain: string, maxSkew: nat)
    requires domain in counts && cachedMin <= MinCount(counts) && 1 <= maxSkew <= U32_MAX
    ensures CachedSkew(counts, cachedMin, domain) <= AsI32(maxSkew) ==>
              UncachedSkew(counts, domain) <= AsI32(maxSkew)
  {
    UncachedSkewIs(counts, domain);
  }

  /** With the true minimum the two filters agree exactly when the constraint
      allows a skew, or the domain is not one of the emptiest. */
  lemma ExactMinimumAgrees(counts: map<string, int>, domain: string, maxSkew: nat)
    requires domain in counts && maxSkew <= U32_MAX
    ensures (CachedSkew(counts, MinCount(counts), domain) <= AsI32(maxSkew) <==>
             UncachedSkew(counts, domain) <= AsI32(maxSkew)) <==>
            maxSkew >= 1 || counts[domain] != MinCount(counts)
  {
    UncachedSkewIs(counts, domain);
  }

  /** The shortcut for a node without pods, else the skew against the limit. */
  ghost predicate SpreadAllows(m: Cluster, node: Node, c: SpreadConstraint) {
    match Lookup(node.labels, c.topologyKey)
    case None => false
    case Some(domain) =>
      || (node.pods == [] && c.maxSkew >= 1)
      || UncachedSkew(DomainCounts(m, c.topologyKey, c.selector), domain) <= AsI32(c.maxSkew)
  }

  ghost predicate PassesSpread(m: Cluster, pod: Pod, node: Node) {
    forall c | c in pod.constraints.topologySpread :: c.whenUnsatisfiable.DoNotSchedule? ==> SpreadAllows(m, node, c)
  }

  // ----- The chain -----

  /** Every filter but the resource fit. */
  ghost predicate PassesOtherFilters(m: Cluster, pod: Pod, node: Node) {
    && ToleratesTaints(pod, node)
    && MatchesNodeAffinity(pod, node)
    && PassesAffinity(m, pod, node)
    && PassesSpread(m, pod, node)
  }

  ghost predicate PassesFilters(m: Cluster, pod: Pod, node: Node) {
    FitsResources(pod, node) && PassesOtherFilters(m, pod, node)
  }

  // ----- Deciding the filters -----

  method FilterAffinity(state: ClusterState, pod: Pod, node: Node) returns (pass: bool)
    requires state.Valid() && Inv(state.Model())
    ensures pass == PassesAffinity(state.Model(), pod, node)
  {
    hide Arena.Valid, Inv;
    ghost var m := state.Model();
    var terms := pod.constraints.podAffinity;
    for i := 0 to |terms|
      invariant state.Model() == m
      invariant forall k :: 0 <= k < i && terms[k].affinityType.Required? ==> AffinityAllows(m, node, terms[k])
    {
      var term := terms[i];
      if term.affinityType.Required? {
        var domain := Lookup(node.labels, term.topologyKey);
        var allowed := term.anti;
        if domain.Some? {
          var found := HasMatchingPod(state, term.topologyKey, domain.value, term.selector);
          allowed := found == !term.anti;
        }
        assert allowed == AffinityAllows(m, node, term);
        if !allowed {
          assert term in terms;
          return false;
        }
      }
    }
    pass := true;
  }

  method SkewUncached(counts: map<string, int>, domain: string) returns (skew: int)
    ensures skew == UncachedSkew(counts, domain)
  {
    var min := SmallestCount(counts);
    var mine := CountIn(counts, domain);
    var newMin := min;
    if mine == min {
      if counts == map[] {
        newMin := mine + 1;
      } else {
        newMin := SmallestCount(Raised(counts, mine));
      }
    }
    skew := mine + 1 - newMin;
  }

  method FilterSpread(state: ClusterState, pod: Pod, node: Node) returns (pass: bool)
    requires state.Valid()
    ensures pass == PassesSpread(state.Model(), pod, node)
  {
    hide Arena.Valid;
    ghost var m := state.Model();
    var constraints := pod.constraints.topologySpread;
    for i := 0 to |constraints|
      invariant state.Model() == m
      invariant forall k :: 0 <= k < i && constraints[k].whenUnsatisfiable.DoNotSchedule? ==>
                  SpreadAllows(m, node, constraints[k])
    {
      var c := constraints[i];
      if c.whenUnsatisfiable.DoNotSchedule? {
        assert c in constraints;
        var domain := Lookup(node.labels, c.topologyKey);
        if domain.None? {
          return false;
        }
        if node.pods != [] || c.maxSkew < 1 {
          var counts := CountDomains(state, c.topologyKey, c.selector);
          var skew := SkewUncached(counts, domain.value);
          if skew > AsI32(c.maxSkew) {
            return false;
          }
        }
      }
    }
    pass := true;
  }

  method FilterOthers(state: ClusterState, pod: Pod, node: Node) returns (pass: bool)
    requires state.Valid() && Inv(state.Model())
    ensures pass == PassesOtherFilters(state.Model(), pod, node)
  {
    hide Arena.Valid, Inv, PassesAffinity, PassesSpread;
    pass := ToleratesTaints(pod, node) && MatchesNodeAffinity(pod, node);
    if pass {
      pass := FilterAffinity(state, pod, node);
    }
    if pass {
      pass := FilterSpread(state, pod, node);
    }
  }

  method FilterAll(state: ClusterState, pod: Pod, node: Node) returns (pass: bool)
    requires state.Valid() && Inv(state.Model())
    ensures pass == PassesFilters(state.Model(), pod, node)
  {
    hide Arena.Valid, Inv, PassesOtherFilters;
    pass := FitsResources(pod, node);
    if pass {
      pass := FilterOthers(state, pod, node);
    }
  }
}
