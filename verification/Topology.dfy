/** Topology domains: the running pods that match in each, and the loops that count them. */
module Topology {
  import opened Types
  import opened Sequences
  import opened Arenas
  import opened ClusterModel
  import opened ClusterStates

  predicate InDomain(m: Cluster, n: NodeId, key: string, domain: string) {
    m.HasNode(n) && Lookup(m.Node(n).labels, key) == Some(domain)
  }

  /** Running pods on live nodes of the domain whose labels match the selector. */
  function MatchingPods(m: Cluster, key: string, domain: string, selector: Labels): set<PodId> {
    set p | p in m.pods.live && Counts(m, p, key, domain, selector)
  }

  predicate Counts(m: Cluster, p: PodId, key: string, domain: string, selector: Labels)
    requires m.HasPod(p)
  {
    && m.Pod(p).phase == Running
    && m.Pod(p).node.Some?
    && InDomain(m, m.Pod(p).node.value, key, domain)
    && Matches(m.Pod(p).labels, selector)
  }

  /** The values that live nodes give to a topology key. */
  function Domains(m: Cluster, key: string): set<string> {
    set n | n in m.nodes.live && Lookup(m.Node(n).labels, key).Some? :: Lookup(m.Node(n).labels, key).value
  }

  /** For every domain, empty ones included, how many running pods match. */
  function DomainCounts(m: Cluster, key: string, selector: Labels): map<string, int> {
    map d | d in Domains(m, key) :: |MatchingPods(m, key, d, selector)|
  }

  lemma NodeDomain(m: Cluster, n: NodeId, key: string)
    requires m.HasNode(n) && Lookup(m.Node(n).labels, key).Some?
    ensures Lookup(m.Node(n).labels, key).value in Domains(m, key)
  {
  }

  // ----- The smallest count -----

  ghost predicate IsMinCount(counts: map<string, int>, c: int) {
    if counts == map[] then c == 0
    else (exists d :: d in counts && counts[d] == c) && (forall d :: d in counts ==> c <= counts[d])
  }

  /** `values().min().unwrap_or(0)`. */
  ghost function MinCount(counts: map<string, int>): (c: int)
    ensures IsMinCount(counts, c)
  {
    if counts == map[] then 0
    else
      var d :| d in counts;
      var rest := counts - {d};
      if rest == map[] then
        assert forall e :: e in counts ==> e == d || e in rest;
        counts[d]
      else
        var c := MinCount(rest);
        assert forall e :: e in counts ==> e == d || e in rest;
        Min(counts[d], c)
  }

  lemma MinCountIs(counts: map<string, int>, c: int)
    requires IsMinCount(counts, c)
    ensures MinCount(counts) == c
  {
  }

  method SmallestCount(counts: map<string, int>) returns (c: int)
    ensures c == MinCount(counts)
  {
    var keys := counts.Keys;
    c := 0;
    ghost var seen: set<string> := {};
    while keys != {}
      invariant keys + seen == counts.Keys && keys !! seen
      invariant seen == {} ==> c == 0
      invariant seen != {} ==> exists d :: d in seen && counts[d] == c
      invariant forall d :: d in seen ==> c <= counts[d]
      decreases keys
    {
      var d :| d in keys;
      c := if keys == counts.Keys then counts[d] else Min(c, counts[d]);
      keys, seen := keys - {d}, seen + {d};
    }
    MinCountIs(counts, c);
  }

  // ----- Counting loops -----

  /** Domains of the nodes visited so far. */
  ghost function DomainsAmong(m: Cluster, visited: set<NodeId>, key: string): set<string> {
    set n | n in visited && m.HasNode(n) && Lookup(m.Node(n).labels, key).Some? :: Lookup(m.Node(n).labels, key).value
  }

  lemma DomainsAmongGrows(m: Cluster, visited: set<NodeId>, n: NodeId, key: string)
    requires m.HasNode(n)
    ensures DomainsAmong(m, visited + {n}, key) ==
            DomainsAmong(m, visited, key) +
            (match Lookup(m.Node(n).labels, key) case Some(d) => {d} case None => {})
  {
    var now := DomainsAmong(m, visited + {n}, key);
    match Lookup(m.Node(n).labels, key)
    case Some(d) => assert n in visited + {n} && d in now;
    case None =>
  }

  /** Matching pods among the ones visited so far. */
  ghost function MatchingAmong(
    m: Cluster, visited: set<PodId>, key: string, domain: string, selector: Labels): set<PodId>
  {
    set p | p in visited && p in m.pods.live && Counts(m, p, key, domain, selector)
  }

  lemma MatchingAmongGrows(m: Cluster, visited: set<PodId>, p: PodId, key: string, domain: string, selector: Labels)
    requires m.HasPod(p) && p !in visited
    ensures |MatchingAmong(m, visited + {p}, key, domain, selector)| ==
            |MatchingAmong(m, visited, key, domain, selector)| + (if Counts(m, p, key, domain, selector) then 1 else 0)
  {
    var was, now :=
      MatchingAmong(m, visited, key, domain, selector), MatchingAmong(m, visited + {p}, key, domain, selector);
    assert now == if Counts(m, p, key, domain, selector) then was + {p} else was;
  }

  lemma AllMatchingGrow(
    m: Cluster, visited: set<PodId>, p: PodId, key: string, selector: Labels, domain: Option<string>)
    requires m.HasPod(p) && p !in visited && forall d :: Counts(m, p, key, d, selector) <==> domain == Some(d)
    ensures forall d :: |MatchingAmong(m, visited + {p}, key, d, selector)| ==
                        |MatchingAmong(m, visited, key, d, selector)| + (if domain == Some(d) then 1 else 0)
  {
    hide Counts;
    forall d
      ensures |MatchingAmong(m, visited + {p}, key, d, selector)| ==
              |MatchingAmong(m, visited, key, d, selector)| + (if domain == Some(d) then 1 else 0)
    {
      MatchingAmongGrows(m, visited, p, key, d, selector);
    }
  }

  lemma MatchingAmongAll(m: Cluster, key: string, selector: Labels)
    ensures forall d :: MatchingAmong(m, m.pods.live.Keys, key, d, selector) == MatchingPods(m, key, d, selector)
  {
    forall d
      ensures MatchingAmong(m, m.pods.live.Keys, key, d, selector) == MatchingPods(m, key, d, selector)
    {
      assert forall p :: p in MatchingAmong(m, m.pods.live.Keys, key, d, selector) <==>
               p in MatchingPods(m, key, d, selector);
    }
  }

  /** `or_insert(0)` for the domain of every node. */
  method EmptyDomains(state: ClusterState, key: string) returns (counts: map<string, int>)
    requires state.Valid()
    ensures counts.Keys == Domains(state.Model(), key)
    ensures forall d :: d in counts ==> counts[d] == 0
  {
    hide Arena.Valid;
    ghost var m := state.Model();
    counts := map[];
    var nodeIds := state.nodes.Handles();
    ghost var visited: set<NodeId> := {};
    for i := 0 to |nodeIds|
      invariant visited <= m.nodes.live.Keys
      invariant forall k :: 0 <= k < i ==> nodeIds[k] in visited
      invariant counts.Keys == DomainsAmong(m, visited, key)
      invariant forall d :: d in counts ==> counts[d] == 0
    {
      var n := nodeIds[i];
      assert n in nodeIds;
      var node := state.nodes.Find(n);
      DomainsAmongGrows(m, visited, n, key);
      var value := Lookup(node.value.labels, key);
      if value.Some? && value.value !in counts {
        counts := counts[value.value := 0];
      }
      visited := visited + {n};
    }
    assert forall n :: n in m.nodes.live.Keys ==> m.nodes.Has(n) && n in nodeIds;
    assert visited == m.nodes.live.Keys;
  }

  /** The domain a running pod is counted in, if it matches. */
  method CountedDomain(state: ClusterState, p: PodId, key: string, selector: Labels) returns (domain: Option<string>)
    requires state.Valid() && state.Model().HasPod(p)
    ensures forall d :: Counts(state.Model(), p, key, d, selector) <==> domain == Some(d)
    ensures domain.Some? ==> domain.value in Domains(state.Model(), key)
  {
    hide Arena.Valid;
    domain := None;
    var found := state.pods.Find(p);
    var pod := found.value;
    if pod.phase == Running && Matches(pod.labels, selector) && pod.node.Some? {
      var target := state.nodes.Find(pod.node.value);
      if target.Some? {
        domain := Lookup(target.value.labels, key);
      }
    }
  }

  /** Every domain has its count among the visited pods. */
  ghost predicate CountsSoFar(m: Cluster, visited: set<PodId>, key: string, selector: Labels, counts: map<string, int>)
  {
    && counts.Keys == Domains(m, key)
    && (forall d :: d in counts ==> counts[d] == |MatchingAmong(m, visited, key, d, selector)|)
  }

  lemma CountsGrow(
    m: Cluster, visited: set<PodId>, p: PodId, key: string, selector: Labels, counts: map<string, int>,
    domain: Option<string>)
    requires CountsSoFar(m, visited, key, selector, counts) && m.HasPod(p) && p !in visited
    requires forall d :: Counts(m, p, key, d, selector) <==> domain == Some(d)
    requires domain.Some? ==> domain.value in Domains(m, key)
    ensures domain.Some? ==> domain.value in counts
    ensures CountsSoFar(m, visited + {p}, key, selector,
                        if domain.Some? then counts[domain.value := counts[domain.value] + 1] else counts)
  {
    hide Counts, MatchingAmong, Domains;
    AllMatchingGrow(m, visited, p, key, selector, domain);
  }

  method CountDomains(state: ClusterState, key: string, selector: Labels) returns (counts: map<string, int>)
    requires state.Valid()
    ensures counts == DomainCounts(state.Model(), key, selector)
  {
    hide Arena.Valid, CountsSoFar, Counts;
    ghost var m := state.Model();
    counts := EmptyDomains(state, key);
    var podIds := state.pods.Handles();
    ghost var visited: set<PodId> := {};
    NothingCounted(m, key, selector, counts);
    for i := 0 to |podIds|
      invariant state.Model() == m && visited <= m.pods.live.Keys
      invariant forall k :: 0 <= k < |podIds| ==> (podIds[k] in visited <==> k < i)
      invariant CountsSoFar(m, visited, key, selector, counts)
    {
      var p := podIds[i];
      assert p in podIds && p !in visited;
      var domain := CountedDomain(state, p, key, selector);
      CountsGrow(m, visited, p, key, selector, counts, domain);
      if domain.Some? {
        counts := counts[domain.value := counts[domain.value] + 1];
      }
      visited := visited + {p};
    }
    assert forall p :: p in m.pods.live.Keys ==> m.pods.Has(p) && p in podIds;
    assert visited == m.pods.live.Keys;
    AllCounted(m, key, selector, counts);
  }

  lemma NothingCounted(m: Cluster, key: string, selector: Labels, counts: map<string, int>)
    requires counts.Keys == Domains(m, key) && forall d :: d in counts ==> counts[d] == 0
    ensures CountsSoFar(m, {}, key, selector, counts)
  {
    assert forall d :: MatchingAmong(m, {}, key, d, selector) == {};
  }

  lemma AllCounted(m: Cluster, key: string, selector: Labels, counts: map<string, int>)
    requires CountsSoFar(m, m.pods.live.Keys, key, selector, counts)
    ensures counts == DomainCounts(m, key, selector)
  {
    MatchingAmongAll(m, key, selector);
  }

  // ----- Looking through the pods that nodes list -----

  /** A listed pod that matches. */
  predicate ListedMatch(m: Cluster, ids: seq<PodId>, p: PodId, selector: Labels) {
    p in ids && m.HasPod(p) && Matches(m.Pod(p).labels, selector)
  }

  /** In an accounted cluster, the matching pods of a domain are the matching
      pods on the lists of its nodes, and each is on one list. */
  lemma ListedMatches(m: Cluster, n: NodeId, key: string, domain: string, selector: Labels)
    requires Inv(m) && InDomain(m, n, key, domain)
    ensures forall p :: ListedMatch(m, m.Node(n).pods, p, selector) <==>
                        p in MatchingPods(m, key, domain, selector) && m.Pod(p).node == Some(n)
    ensures NoDuplicates(m.Node(n).pods)
  {
    assert NodeAgrees(m, n);
    forall p
      ensures ListedMatch(m, m.Node(n).pods, p, selector) <==>
              p in MatchingPods(m, key, domain, selector) && m.Pod(p).node == Some(n)
    {
      if m.HasPod(p) {
        assert PodAgrees(m, p);
        assert p in m.Node(n).pods <==> m.RunsOn(p, n);
      }
    }
  }

  method AnyListedMatch(state: ClusterState, ids: seq<PodId>, selector: Labels) returns (found: bool)
    requires state.Valid()
    ensures found <==> exists p :: ListedMatch(state.Model(), ids, p, selector)
  {
    hide Arena.Valid;
    for j := 0 to |ids|
      invariant forall k :: 0 <= k < j ==> !ListedMatch(state.Model(), ids, ids[k], selector)
    {
      var pod := state.pods.Find(ids[j]);
      if pod.Some? && Matches(pod.value.labels, selector) {
        assert ListedMatch(state.Model(), ids, ids[j], selector);
        return true;
      }
    }
    found := false;
  }

  method CountListedMatches(state: ClusterState, ids: seq<PodId>, selector: Labels) returns (count: int)
    requires state.Valid() && NoDuplicates(ids)
    ensures count == |set p | p in ids && ListedMatch(state.Model(), ids, p, selector)|
  {
    hide Arena.Valid;
    count := 0;
    ghost var m := state.Model();
    ghost var counted: set<PodId> := {};
    for j := 0 to |ids|
      invariant count == |counted|
      invariant forall p :: p in counted ==> ListedMatch(m, ids, p, selector)
      invariant forall k :: 0 <= k < |ids| ==> (ids[k] in counted <==> k < j && ListedMatch(m, ids, ids[k], selector))
    {
      var pod := state.pods.Find(ids[j]);
      if pod.Some? && Matches(pod.value.labels, selector) {
        count, counted := count + 1, counted + {ids[j]};
      }
    }
    assert counted == set p | p in ids && ListedMatch(m, ids, p, selector);
  }

  /** Does any pod on the nodes of the domain match? */
  method HasMatchingPod(state: ClusterState, key: string, domain: string, selector: Labels) returns (found: bool)
    requires state.Valid() && Inv(state.Model())
    ensures found <==> MatchingPods(state.Model(), key, domain, selector) != {}
  {
    hide Arena.Valid, Inv;
    ghost var m := state.Model();
    var nodeIds := state.nodes.Handles();
    for i := 0 to |nodeIds|
      invariant forall p, k :: 0 <= k < i && p in MatchingPods(m, key, domain, selector) ==>
                  m.Pod(p).node.value != nodeIds[k]
    {
      var n := nodeIds[i];
      assert n in nodeIds;
      var node := state.nodes.Find(n);
      if Lookup(node.value.labels, key) == Some(domain) {
        ListedMatches(m, n, key, domain, selector);
        found := AnyListedMatch(state, node.value.pods, selector);
        if found {
          return;
        }
        assert state.Model() == m;
      }
    }
    found := false;
  }

  /** The matching pods that run on the visited nodes. */
  ghost function MatchingOn(m: Cluster, visited: set<NodeId>, key: string, domain: string, selector: Labels): set<PodId>
  {
    set p | p in MatchingPods(m, key, domain, selector) && m.Pod(p).node.value in visited
  }

  ghost function ListedOn(m: Cluster, n: NodeId, selector: Labels): set<PodId>
    requires m.HasNode(n)
  {
    set p | p in m.Node(n).pods && ListedMatch(m, m.Node(n).pods, p, selector)
  }

  lemma MatchingOnGrows(m: Cluster, visited: set<NodeId>, n: NodeId, key: string, domain: string, selector: Labels)
    requires Inv(m) && m.HasNode(n) && n !in visited
    ensures |MatchingOn(m, visited + {n}, key, domain, selector)| ==
            |MatchingOn(m, visited, key, domain, selector)| +
              (if InDomain(m, n, key, domain) then |ListedOn(m, n, selector)| else 0)
  {
    var was, now := MatchingOn(m, visited, key, domain, selector), MatchingOn(m, visited + {n}, key, domain, selector);
    if InDomain(m, n, key, domain) {
      ListedMatches(m, n, key, domain, selector);
      hide Inv, ListedMatch;
      assert now == was + ListedOn(m, n, selector);
    } else {
      assert now == was;
    }
  }

  lemma MatchingOnAll(m: Cluster, key: string, domain: string, selector: Labels)
    ensures MatchingOn(m, m.nodes.live.Keys, key, domain, selector) == MatchingPods(m, key, domain, selector)
    ensures MatchingOn(m, {}, key, domain, selector) == {}
  {
  }

  /** How many pods on the nodes of the domain match? */
  method CountMatchingPods(state: ClusterState, key: string, domain: string, selector: Labels) returns (count: int)
    requires state.Valid() && Inv(state.Model())
    ensures count == |MatchingPods(state.Model(), key, domain, selector)|
  {
    hide Arena.Valid, Inv, MatchingOn, MatchingPods;
    ghost var m := state.Model();
    ghost var visited: set<NodeId> := {};
    count := 0;
    var nodeIds := state.nodes.Handles();
    MatchingOnAll(m, key, domain, selector);
    for i := 0 to |nodeIds|
      invariant state.Model() == m && visited <= m.nodes.live.Keys
      invariant forall k :: 0 <= k < |nodeIds| ==> (nodeIds[k] in visited <==> k < i)
      invariant count == |MatchingOn(m, visited, key, domain, selector)|
    {
      var n := nodeIds[i];
      assert n in nodeIds;
      var node := state.nodes.Find(n);
      MatchingOnGrows(m, visited, n, key, domain, selector);
      if Lookup(node.value.labels, key) == Some(domain) {
        ListedMatches(m, n, key, domain, selector);
        var here := CountListedMatches(state, node.value.pods, selector);
        count := count + here;
      }
      visited := visited + {n};
    }
    assert forall n :: n in m.nodes.live.Keys ==> m.nodes.Has(n) && n in nodeIds;
    assert visited == m.nodes.live.Keys;
  }
}
