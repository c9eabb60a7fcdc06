/** The cached chain: the same filters and scores, read through the caches. With
    exact caches the verdict is that of the uncached chain; with low minima a
    pod is still bound to a feasible node only. */
module CachedScheduling {
  import opened Types
  import opened Arenas
  import opened ClusterModel
  import opened ClusterStates
  import opened SelectorKeys
  import opened Topology
  import opened Filters
  import opened Scoring
  import opened Preemption
  import opened Caches
  import opened Scheduling

  /** Selectors the caches can print and read back, and spread limits of at least one. */
  predicate Cacheable(pod: Pod) {
    && (forall term | term in pod.constraints.podAffinity :: Clean(term.selector))
    && (forall c | c in pod.constraints.topologySpread ::
          Clean(c.selector) && (c.whenUnsatisfiable.DoNotSchedule? ==> 1 <= c.maxSkew <= U32_MAX))
  }

  /** The counts agree with the cluster and no minimum is too high. */
  ghost predicate Trusted(c: CacheValue, m: Cluster) {
    Agrees(c, m) && MinimaLow(c)
  }

  /** A lookup under agreeing caches returns the true counts and a low or exact minimum. */
  lemma TrustedCounts(c: CacheValue, m: Cluster, key: string, selector: Labels)
    requires Trusted(c, m) && Clean(selector)
    ensures var c' := CountsLooked(c, m, key, selector);
            var k := (key, SelectorKey(selector));
            && Trusted(c', m) && (MinimaExact(c) ==> MinimaExact(c'))
            && k in c'.spreadCounts && k in c'.spreadMin
            && c'.spreadCounts[k] == DomainCounts(m, key, selector)
            && c'.spreadMin[k] <= MinCount(DomainCounts(m, key, selector))
            && (MinimaExact(c) ==> c'.spreadMin[k] == MinCount(DomainCounts(m, key, selector)))
  {
    hide DomainCounts, SelectorKey, ParseKey, Clean;
    CountsLookedAgrees(c, m, key, selector);
    SameCounts(m, key, selector);
  }

  lemma TrustedMatch(c: CacheValue, m: Cluster, key: string, domain: string, selector: Labels, anti: bool)
    requires Trusted(c, m) && Clean(selector)
    ensures var c' := MatchLooked(c, m, key, domain, selector, anti);
            var k := (key, domain, SelectorKey(selector), anti);
            && Trusted(c', m) && (MinimaExact(c) ==> MinimaExact(c'))
            && k in c'.affinityMatch && c'.affinityMatch[k] == (MatchingPods(m, key, domain, selector) != {})
  {
    hide MatchingPods, SelectorKey, ParseKey, Clean;
    MatchLookedAgrees(c, m, key, domain, selector, anti);
    SameMatching(m, key, domain, selector);
  }

  lemma TrustedCount(c: CacheValue, m: Cluster, key: string, domain: string, selector: Labels)
    requires Trusted(c, m) && Clean(selector)
    ensures var c' := CountLooked(c, m, key, domain, selector);
            var k := (key, domain, SelectorKey(selector));
            && Trusted(c', m) && (MinimaExact(c) ==> MinimaExact(c'))
            && k in c'.affinityCount && c'.affinityCount[k] == |MatchingPods(m, key, domain, selector)|
  {
    hide MatchingPods, SelectorKey, ParseKey, Clean;
    CountLookedAgrees(c, m, key, domain, selector);
    SameMatching(m, key, domain, selector);
  }

  // ----- Filters -----

  method FilterAffinityCached(state: ClusterState, pod: Pod, node: Node, caches: SchedulingCaches) returns (pass: bool)
    requires state.Valid() && Inv(state.Model()) && caches.Valid()
    modifies caches
    ensures caches.Valid()
    ensures Cacheable(pod) && old(Trusted(caches.Contents(), state.Model())) ==>
              && Trusted(caches.Contents(), state.Model())
              && (old(MinimaExact(caches.Contents())) ==> MinimaExact(caches.Contents()))
              && pass == PassesAffinity(state.Model(), pod, node)
  {
    hide Arena.Valid, Inv, Trusted, MinimaExact, SelectorKey, MatchLooked, Clean;
    ghost var m := state.Model();
    ghost var good, exact := Cacheable(pod) && Trusted(caches.Contents(), m), MinimaExact(caches.Contents());
    var terms := pod.constraints.podAffinity;
    for i := 0 to |terms|
      invariant caches.Valid() && state.Valid() && state.Model() == m
      invariant good ==> Trusted(caches.Contents(), m) && (exact ==> MinimaExact(caches.Contents()))
      invariant good ==> forall k :: 0 <= k < i && terms[k].affinityType.Required? ==> AffinityAllows(m, node, terms[k])
    {
      var term := terms[i];
      assert term in terms;
      if term.affinityType.Required? {
        var domain := Lookup(node.labels, term.topologyKey);
        if domain.None? {
          if !term.anti {
            return false;
          }
        } else {
          if good {
            TrustedMatch(caches.Contents(), m, term.topologyKey, domain.value, term.selector, term.anti);
          }
          var found := caches.GetAffinityMatch(state, term.topologyKey, domain.value, term);
          if found == term.anti {
            return false;
          }
        }
      }
    }
    pass := true;
  }

  /** A cached pass is an uncached pass; with exact minima the two agree. */
  method FilterSpreadCached(state: ClusterState, pod: Pod, n: NodeId, node: Node, caches: SchedulingCaches)
    returns (pass: bool)
    requires state.Valid() && caches.Valid()
    requires state.Model().HasNode(n) && state.Model().Node(n) == node
    modifies caches
    ensures caches.Valid()
    ensures Cacheable(pod) && old(Trusted(caches.Contents(), state.Model())) ==>
              && Trusted(caches.Contents(), state.Model())
              && (old(MinimaExact(caches.Contents())) ==> MinimaExact(caches.Contents()))
              && (pass ==> PassesSpread(state.Model(), pod, node))
              && (old(MinimaExact(caches.Contents())) ==> pass == PassesSpread(state.Model(), pod, node))
  {
    hide Arena.Valid, Trusted, MinimaExact, SelectorKey, CountsLooked, Clean, UncachedSkew, CachedSkew, DomainCounts;
    ghost var m := state.Model();
    ghost var good, exact := Cacheable(pod) && Trusted(caches.Contents(), m), MinimaExact(caches.Contents());
    var constraints := pod.constraints.topologySpread;
    for i := 0 to |constraints|
      invariant caches.Valid() && state.Valid() && state.Model() == m
      invariant good ==> Trusted(caches.Contents(), m) && (exact ==> MinimaExact(caches.Contents()))
      invariant good ==> forall k :: 0 <= k < i && constraints[k].whenUnsatisfiable.DoNotSchedule? ==>
                  SpreadAllows(m, node, constraints[k])
    {
      var c := constraints[i];
      assert c in constraints;
      if c.whenUnsatisfiable.DoNotSchedule? {
        var domain := Lookup(node.labels, c.topologyKey);
        if domain.None? {
          return false;
        }
        if node.pods != [] || c.maxSkew < 1 {
          if good {
            TrustedCounts(caches.Contents(), m, c.topologyKey, c.selector);
          }
          var counts, min := caches.GetDomainCounts(state, c.topologyKey, c.selector);
          if good {
            SpreadVerdict(m, n, c, domain.value, min);
          }
          if CachedSkew(counts, min, domain.value) > AsI32(c.maxSkew) {
            return false;
          }
        }
      }
    }
    pass := true;
  }

  lemma SpreadVerdict(m: Cluster, n: NodeId, c: SpreadConstraint, domain: string, min: int)
    requires InDomain(m, n, c.topologyKey, domain) && 1 <= c.maxSkew <= U32_MAX
    requires min <= MinCount(DomainCounts(m, c.topologyKey, c.selector))
    ensures var counts := DomainCounts(m, c.topologyKey, c.selector);
            var cached := CachedSkew(counts, min, domain) <= AsI32(c.maxSkew);
            var uncached := UncachedSkew(counts, domain) <= AsI32(c.maxSkew);
            && (cached ==> uncached)
            && (min == MinCount(counts) ==> cached == uncached)
  {
    NodeDomain(m, n, c.topologyKey);
    LowMinimumIsSafe(DomainCounts(m, c.topologyKey, c.selector), min, domain, c.maxSkew);
    ExactMinimumAgrees(DomainCounts(m, c.topologyKey, c.selector), domain, c.maxSkew);
  }

  /** The whole chain on a live node, reading counts through the caches. */
  method FilterAllCached(state: ClusterState, pod: Pod, n: NodeId, node: Node, caches: SchedulingCaches)
    returns (pass: bool)
    requires state.Valid() && Inv(state.Model()) && caches.Valid()
    requires state.Model().HasNode(n) && state.Model().Node(n) == node
    modifies caches
    ensures caches.Valid() && (pass ==> FitsResources(pod, node))
    ensures Cacheable(pod) && old(Trusted(caches.Contents(), state.Model())) ==>
              && Trusted(caches.Contents(), state.Model())
              && (old(MinimaExact(caches.Contents())) ==> MinimaExact(caches.Contents()))
              && (pass ==> PassesFilters(state.Model(), pod, node))
              && (old(MinimaExact(caches.Contents())) ==> pass == PassesFilters(state.Model(), pod, node))
  {
    hide Arena.Valid, Inv, Trusted, MinimaExact, Cacheable, PassesAffinity, PassesSpread, Matches;
    pass := FitsResources(pod, node) && ToleratesTaints(pod, node) && MatchesNodeAffinity(pod, node);
    if pass {
      pass := FilterAffinityCached(state, pod, node, caches);
    }
    if pass {
      pass := FilterSpreadCached(state, pod, n, node, caches);
    }
  }

  // ----- Scores -----

  method ScoreAffinityCached(state: ClusterState, pod: Pod, node: Node, caches: SchedulingCaches) returns (score: int)
    requires state.Valid() && Inv(state.Model()) && caches.Valid()
    modifies caches
    ensures caches.Valid()
    ensures Cacheable(pod) && old(Trusted(caches.Contents(), state.Model())) ==>
              && Trusted(caches.Contents(), state.Model())
              && (old(MinimaExact(caches.Contents())) ==> MinimaExact(caches.Contents()))
              && score == AffinityScore(state.Model(), pod.constraints.podAffinity, node)
  {
    hide Arena.Valid, Inv, Trusted, MinimaExact, SelectorKey, CountLooked, Clean;
    ghost var m := state.Model();
    ghost var good, exact := Cacheable(pod) && Trusted(caches.Contents(), m), MinimaExact(caches.Contents());
    var terms := pod.constraints.podAffinity;
    score := 0;
    for i := 0 to |terms|
      invariant caches.Valid() && state.Valid() && state.Model() == m
      invariant good ==> Trusted(caches.Contents(), m) && (exact ==> MinimaExact(caches.Contents()))
      invariant good ==> score == AffinityScore(m, terms[..i], node)
    {
      assert terms[..i + 1][..i] == terms[..i];
      var term := terms[i];
      assert term in terms;
      var domain := Lookup(node.labels, term.topologyKey);
      if term.affinityType.Preferred? && domain.Some? {
        if good {
          TrustedCount(caches.Contents(), m, term.topologyKey, domain.value, term.selector);
        }
        var count := caches.GetAffinityCount(state, term.topologyKey, domain.value, term);
        score := if term.anti then score - count * term.affinityType.weight
          else score + count * term.affinityType.weight;
      }
    }
    assert terms[..|terms|] == terms;
  }

  method ScoreSpreadCached(state: ClusterState, pod: Pod, n: NodeId, node: Node, caches: SchedulingCaches)
    returns (score: int)
    requires state.Valid() && caches.Valid()
    requires state.Model().HasNode(n) && state.Model().Node(n) == node
    modifies caches
    ensures caches.Valid()
    ensures Cacheable(pod) && old(Trusted(caches.Contents(), state.Model())) ==>
              && Trusted(caches.Contents(), state.Model())
              && (old(MinimaExact(caches.Contents())) ==>
                    MinimaExact(caches.Contents()) && score == Score(state.Model(), pod, node, TopologySpreadScore))
  {
    hide Arena.Valid, Trusted, MinimaExact, SelectorKey, CountsLooked, Clean, DomainCounts;
    ghost var m := state.Model();
    ghost var good, exact := Cacheable(pod) && Trusted(caches.Contents(), m), MinimaExact(caches.Contents());
    var constraints := pod.constraints.topologySpread;
    var total, scored := 0, 0;
    for i := 0 to |constraints|
      invariant caches.Valid() && state.Valid() && state.Model() == m
      invariant good ==> Trusted(caches.Contents(), m) && (exact ==> MinimaExact(caches.Contents()))
      invariant good && exact ==> total == TotalSkew(m, constraints[..i], node)
      invariant scored == ScoredConstraints(constraints[..i], node)
    {
      assert constraints[..i + 1][..i] == constraints[..i];
      var c := constraints[i];
      assert c in constraints;
      if SpreadScored(node, c) {
        var domain := Lookup(node.labels, c.topologyKey).value;
        if good {
          TrustedCounts(caches.Contents(), m, c.topologyKey, c.selector);
          DomainIsCounted(m, n, c, domain);
        }
        var counts, min := caches.GetDomainCounts(state, c.topologyKey, c.selector);
        total := total + Max(CountIn(counts, domain) + 1 - (if domain in counts then min else 0), 0);
        scored := scored + 1;
      }
    }
    assert constraints[..|constraints|] == constraints;
    score := SpreadScoreOf(total, scored);
  }

  lemma DomainIsCounted(m: Cluster, n: NodeId, c: SpreadConstraint, domain: string)
    requires InDomain(m, n, c.topologyKey, domain)
    ensures domain in DomainCounts(m, c.topologyKey, c.selector)
  {
    NodeDomain(m, n, c.topologyKey);
  }

  method ScoreNodeCached(state: ClusterState, pod: Pod, n: NodeId, node: Node, scorer: Scorer, caches: SchedulingCaches)
    returns (score: int)
    requires state.Valid() && Inv(state.Model()) && caches.Valid()
    requires state.Model().HasNode(n) && state.Model().Node(n) == node
    modifies caches
    ensures caches.Valid()
    ensures Cacheable(pod) && old(Trusted(caches.Contents(), state.Model())) ==>
              && Trusted(caches.Contents(), state.Model())
              && (old(MinimaExact(caches.Contents())) ==>
                    MinimaExact(caches.Contents()) && score == Score(state.Model(), pod, node, scorer))
  {
    hide Arena.Valid, Inv, Trusted, MinimaExact, Cacheable, StaticScore, AffinityScore, TotalSkew, SpreadScoreOf;
    if scorer == InterPodAffinityScore {
      score := ScoreAffinityCached(state, pod, node, caches);
    } else if scorer == TopologySpreadScore {
      score := ScoreSpreadCached(state, pod, n, node, caches);
    } else {
      score := StaticScore(pod, node, scorer);
    }
  }

  // ----- The chain -----

  method FeasibleNodesCached(state: ClusterState, pod: Pod, saturated: set<NodeId>, caches: SchedulingCaches)
    returns (feasible: seq<NodeId>, anyRejected: bool)
    requires state.Valid() && Inv(state.Model()) && caches.Valid()
    modifies caches
    ensures caches.Valid()
    ensures forall n :: n in feasible ==> state.Model().HasNode(n) && FitsResources(pod, state.Model().Node(n))
    ensures Cacheable(pod) && old(Trusted(caches.Contents(), state.Model())) ==>
              && Trusted(caches.Contents(), state.Model())
              && (old(MinimaExact(caches.Contents())) ==> MinimaExact(caches.Contents()))
              && (forall n :: n in feasible ==> IsFeasible(state.Model(), pod, n))
    ensures Cacheable(pod) && old(Trusted(caches.Contents(), state.Model()) && MinimaExact(caches.Contents())) &&
            saturated == {} ==>
              && feasible == Feasible(state.Model(), pod, Order(state.Model().nodes))
              && anyRejected == AnyRejected(state.Model(), pod, Order(state.Model().nodes))
  {
    hide Arena.Valid, Inv, Trusted, MinimaExact, Cacheable, PassesFilters, FitsResources;
    ghost var m := state.Model();
    ghost var good, exact := Cacheable(pod) && Trusted(caches.Contents(), m), MinimaExact(caches.Contents());
    feasible, anyRejected := [], false;
    var nodeIds := state.nodes.Handles();
    for i := 0 to |nodeIds|
      invariant caches.Valid() && state.Valid() && state.Model() == m
      invariant forall n :: n in feasible ==> m.HasNode(n) && FitsResources(pod, m.Node(n))
      invariant good ==> Trusted(caches.Contents(), m) && (exact ==> MinimaExact(caches.Contents()))
      invariant good ==> forall n :: n in feasible ==> IsFeasible(m, pod, n)
      invariant good && exact && saturated == {} ==> feasible == Feasible(m, pod, nodeIds[..i])
      invariant good && exact && saturated == {} ==>
                  (anyRejected <==>
                   exists k :: 0 <= k < i && m.HasNode(nodeIds[k]) && m.Node(nodeIds[k]).Schedulable() &&
                     !IsFeasible(m, pod, nodeIds[k]))
    {
      assert nodeIds[i] in nodeIds && nodeIds[..i + 1][..i] == nodeIds[..i];
      var n := nodeIds[i];
      var node := state.nodes.Find(n);
      if node.value.Schedulable() && n !in saturated {
        var pass := FilterAllCached(state, pod, n, node.value, caches);
        assert good && exact ==> pass == IsFeasible(m, pod, n);
        if pass {
          feasible := feasible + [n];
        } else {
          anyRejected := true;
        }
      }
    }
    assert nodeIds[..|nodeIds|] == nodeIds;
  }

  method RawScoresCached(state: ClusterState, pod: Pod, feasible: seq<NodeId>, scorer: Scorer, caches: SchedulingCaches)
    returns (raw: seq<int>)
    requires state.Valid() && Inv(state.Model()) && caches.Valid()
    requires forall n :: n in feasible ==> state.Model().HasNode(n)
    modifies caches
    ensures caches.Valid() && |raw| == |feasible|
    ensures Cacheable(pod) && old(Trusted(caches.Contents(), state.Model())) ==>
              && Trusted(caches.Contents(), state.Model())
              && (old(MinimaExact(caches.Contents())) ==>
                    MinimaExact(caches.Contents()) && raw == RawScores(state.Model(), pod, feasible, scorer))
  {
    hide Arena.Valid, Inv, Trusted, MinimaExact, Cacheable, Score;
    ghost var m := state.Model();
    ghost var good, exact := Cacheable(pod) && Trusted(caches.Contents(), m), MinimaExact(caches.Contents());
    raw := [];
    for i := 0 to |feasible|
      invariant caches.Valid() && state.Valid() && state.Model() == m && |raw| == i
      invariant forall n :: n in feasible[..i] ==> m.HasNode(n)
      invariant good ==> Trusted(caches.Contents(), m) && (exact ==> MinimaExact(caches.Contents()))
      invariant good && exact ==> raw == RawScores(m, pod, feasible[..i], scorer)
    {
      assert feasible[i] in feasible && feasible[..i + 1][..i] == feasible[..i];
      var node := state.nodes.Find(feasible[i]);
      var score := ScoreNodeCached(state, pod, feasible[i], node.value, scorer, caches);
      raw := raw + [score];
    }
    assert feasible[..|feasible|] == feasible;
  }

  method SelectNodeCached(
    state: ClusterState, pod: Pod, feasible: seq<NodeId>, strategy: Strategy, caches: SchedulingCaches)
    returns (best: NodeId)
    requires state.Valid() && Inv(state.Model()) && caches.Valid()
    requires feasible != [] && forall n :: n in feasible ==> state.Model().HasNode(n)
    modifies caches
    ensures caches.Valid() && best in feasible
    ensures Cacheable(pod) && old(Trusted(caches.Contents(), state.Model())) ==>
              && Trusted(caches.Contents(), state.Model())
              && (old(MinimaExact(caches.Contents())) ==>
                    MinimaExact(caches.Contents()) && best == Select(state.Model(), pod, feasible, strategy))
  {
    hide Arena.Valid, Inv, Trusted, MinimaExact, Cacheable, Normalize, AddScores, RawScores;
    ghost var m := state.Model();
    ghost var good, exact := Cacheable(pod) && Trusted(caches.Contents(), m), MinimaExact(caches.Contents());
    var scorers := ScorersOf(strategy);
    var totals := seq(|feasible|, _ => 0);
    for i := 0 to |scorers|
      invariant caches.Valid() && state.Valid() && state.Model() == m && |totals| == |feasible|
      invariant good ==> Trusted(caches.Contents(), m) && (exact ==> MinimaExact(caches.Contents()))
      invariant good && exact ==> totals == Totals(m, pod, feasible, scorers[..i])
    {
      assert scorers[..i + 1][..i] == scorers[..i];
      var raw := RawScoresCached(state, pod, feasible, scorers[i], caches);
      totals := AddScores(totals, Normalize(raw));
    }
    assert scorers[..|scorers|] == scorers;
    best := feasible[LastLargest(totals)];
  }

  /** With caches that agree with the cluster, exact minima and no saturated
      nodes, the cached chain returns what the uncached chain returns. With
      minima that may be too low it still binds to feasible nodes only. */
  method ScheduleOneCached(
    state: ClusterState, p: PodId, strategy: Strategy, saturated: set<NodeId>, caches: SchedulingCaches)
    returns (r: ScheduleResult)
    requires state.Valid() && Inv(state.Model()) && caches.Valid()
    modifies caches
    ensures caches.Valid() && Justified(state.Model(), p, r)
    ensures (state.Model().HasPod(p) ==> Cacheable(state.Model().Pod(p))) &&
            old(Trusted(caches.Contents(), state.Model())) ==>
              && Trusted(caches.Contents(), state.Model())
              && (old(MinimaExact(caches.Contents())) ==> MinimaExact(caches.Contents()))
              && (r.BoundTo? ==> state.Model().HasPod(p) && IsFeasible(state.Model(), state.Model().Pod(p), r.node))
              && (old(MinimaExact(caches.Contents())) && saturated == {} ==>
                  r == ScheduleOne(state.Model(), p, strategy))
  {
    hide Arena.Valid, Trusted, MinimaExact, Cacheable, IsFeasible, AnyRejected, EvaluatePreemption, Select;
    ghost var m := state.Model();
    var found := state.pods.Find(p);
    if found.None? {
      return Unschedulable(PodNotFound);
    }
    var pod := found.value;
    var feasible, anyRejected := FeasibleNodesCached(state, pod, saturated, caches);
    FeasibleFacts(m, pod, Order(m.nodes));
    assert state.Model() == m;
    if feasible == [] {
      var candidate := FindPreemption(state, pod);
      if candidate.Some? {
        return Preempted(candidate.value.node, candidate.value.victims);
      }
      return Unschedulable(if anyRejected then NoFeasibleNode else NoReadyNodes);
    }
    var best := SelectNodeCached(state, pod, feasible, strategy, caches);
    r := BoundTo(best);
  }
}
