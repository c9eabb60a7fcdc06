/** The scheduling caches, updated step by step, and when they equal a recomputation. */
module Caches {
  import opened Types
  import opened Arenas
  import opened ClusterModel
  import opened ClusterStates
  import opened SelectorKeys
  import opened Topology
  import opened Filters

  /** (topology key, printed selector). */
  type SpreadKey = (string, string)

  /** (topology key, domain, printed selector, anti). */
  type MatchKey = (string, string, string, bool)

  /** (topology key, domain, printed selector). */
  type CountKey = (string, string, string)

  datatype CacheValue = CacheValue(
    spreadCounts: map<SpreadKey, map<string, int>>,
    spreadMin: map<SpreadKey, int>,
    affinityMatch: map<MatchKey, bool>,
    affinityCount: map<CountKey, int>)

  const NOTHING_CACHED: CacheValue := CacheValue(map[], map[], map[], map[])

  // ----- Updates, as functions of the contents -----

  /** The domain in which a bound pod is counted under a key, if it matches. */
  function BoundDomain(pod: Pod, node: Node, key: SpreadKey): Option<string> {
    if Matches(pod.labels, ParseKey(key.1)) then Lookup(node.labels, key.0) else None
  }

  function Bumped(counts: map<string, int>, domain: string): map<string, int> {
    counts[domain := CountIn(counts, domain) + 1]
  }

  predicate AnyAt(counts: map<string, int>, value: int) {
    exists d | d in counts :: counts[d] == value
  }

  /** The minimum moves up only if the bumped domain was the last one at it. */
  function BumpedMin(counts: map<string, int>, min: int, domain: string): int {
    var was := CountIn(counts, domain);
    if was == min && !AnyAt(Bumped(counts, domain), was) then was + 1 else min
  }

  function CountsAfterBind(counts: map<string, int>, pod: Pod, node: Node, key: SpreadKey): map<string, int> {
    match BoundDomain(pod, node, key)
    case None => counts
    case Some(d) => Bumped(counts, d)
  }

  function MinAfterBind(counts: map<string, int>, min: int, pod: Pod, node: Node, key: SpreadKey): int {
    match BoundDomain(pod, node, key)
    case None => min
    case Some(d) => BumpedMin(counts, min, d)
  }

  predicate Lands(pod: Pod, node: Node, key: string, domain: string, printed: string) {
    Lookup(node.labels, key) == Some(domain) && Matches(pod.labels, ParseKey(printed))
  }

  function PodBound(c: CacheValue, pod: Pod, node: Node): CacheValue {
    CacheValue(
      map k | k in c.spreadCounts :: CountsAfterBind(c.spreadCounts[k], pod, node, k),
      map k | k in c.spreadMin ::
        if k in c.spreadCounts then MinAfterBind(c.spreadCounts[k], c.spreadMin[k], pod, node, k) else c.spreadMin[k],
      map k | k in c.affinityMatch :: c.affinityMatch[k] || Lands(pod, node, k.0, k.1, k.2),
      map k | k in c.affinityCount :: c.affinityCount[k] + (if Lands(pod, node, k.0, k.1, k.2) then 1 else 0))
  }

  function CountsAfterNode(counts: map<string, int>, node: Node, key: SpreadKey): map<string, int> {
    match Lookup(node.labels, key.0)
    case None => counts
    case Some(d) => if d in counts then counts else counts[d := 0]
  }

  function NodeAdded(c: CacheValue, node: Node): CacheValue {
    c.(spreadCounts := map k | k in c.spreadCounts :: CountsAfterNode(c.spreadCounts[k], node, k),
       spreadMin := map k | k in c.spreadMin :: Min(c.spreadMin[k], 0))
  }

  // ----- Lookups, which remember what they compute -----

  ghost function CountsLooked(c: CacheValue, m: Cluster, key: string, selector: Labels): CacheValue {
    var k := (key, SelectorKey(selector));
    if k in c.spreadCounts then c
    else
      var counts := DomainCounts(m, key, selector);
      c.(spreadCounts := c.spreadCounts[k := counts], spreadMin := c.spreadMin[k := MinCount(counts)])
  }

  function MatchLooked(c: CacheValue, m: Cluster, key: string, domain: string, selector: Labels, anti: bool): CacheValue
  {
    var k := (key, domain, SelectorKey(selector), anti);
    if k in c.affinityMatch then c
    else c.(affinityMatch := c.affinityMatch[k := MatchingPods(m, key, domain, selector) != {}])
  }

  function CountLooked(c: CacheValue, m: Cluster, key: string, domain: string, selector: Labels): CacheValue {
    var k := (key, domain, SelectorKey(selector));
    if k in c.affinityCount then c
    else c.(affinityCount := c.affinityCount[k := |MatchingPods(m, key, domain, selector)|])
  }

  // ----- Agreement with recomputation -----

  /** Every remembered count, match and affinity count is what a fresh
      computation yields for the selector its key stands for. */
  ghost predicate Agrees(c: CacheValue, m: Cluster) {
    && c.spreadMin.Keys == c.spreadCounts.Keys
    && (forall k :: k in c.spreadCounts ==> c.spreadCounts[k] == DomainCounts(m, k.0, ParseKey(k.1)))
    && (forall k :: k in c.affinityMatch ==> c.affinityMatch[k] == (MatchingPods(m, k.0, k.1, ParseKey(k.2)) != {}))
    && (forall k :: k in c.affinityCount ==> c.affinityCount[k] == |MatchingPods(m, k.0, k.1, ParseKey(k.2))|)
  }

  /** No remembered minimum exceeds the true one. */
  ghost predicate MinimaLow(c: CacheValue) {
    forall k :: k in c.spreadMin && k in c.spreadCounts ==> c.spreadMin[k] <= MinCount(c.spreadCounts[k])
  }

  ghost predicate MinimaExact(c: CacheValue) {
    forall k :: k in c.spreadMin && k in c.spreadCounts ==> c.spreadMin[k] == MinCount(c.spreadCounts[k])
  }

  /** The selector that a key stands for counts the same pods as the original. */
  lemma SameMatching(m: Cluster, key: string, domain: string, selector: Labels)
    requires Clean(selector)
    ensures MatchingPods(m, key, domain, ParseKey(SelectorKey(selector))) == MatchingPods(m, key, domain, selector)
  {
    forall p | p in m.pods.live
      ensures Counts(m, p, key, domain, ParseKey(SelectorKey(selector))) <==> Counts(m, p, key, domain, selector)
    {
      RoundTripMatches(selector, m.Pod(p).labels);
    }
  }

  lemma SameCounts(m: Cluster, key: string, selector: Labels)
    requires Clean(selector)
    ensures DomainCounts(m, key, ParseKey(SelectorKey(selector))) == DomainCounts(m, key, selector)
  {
    forall d | d in Domains(m, key)
      ensures |MatchingPods(m, key, d, ParseKey(SelectorKey(selector)))| == |MatchingPods(m, key, d, selector)|
    {
      SameMatching(m, key, d, selector);
    }
  }

  /** Lookups with separator-free selectors keep the caches in agreement. */
  lemma CountsLookedAgrees(c: CacheValue, m: Cluster, key: string, selector: Labels)
    requires Agrees(c, m) && Clean(selector)
    ensures Agrees(CountsLooked(c, m, key, selector), m)
    ensures MinimaLow(c) ==> MinimaLow(CountsLooked(c, m, key, selector))
    ensures MinimaExact(c) ==> MinimaExact(CountsLooked(c, m, key, selector))
  {
    hide DomainCounts, MatchingPods, SelectorKey, ParseKey, Clean;
    SameCounts(m, key, selector);
  }

  lemma MatchLookedAgrees(c: CacheValue, m: Cluster, key: string, domain: string, selector: Labels, anti: bool)
    requires Agrees(c, m) && Clean(selector)
    ensures Agrees(MatchLooked(c, m, key, domain, selector, anti), m)
  {
    hide DomainCounts, MatchingPods, SelectorKey, ParseKey, Clean;
    SameMatching(m, key, domain, selector);
  }

  lemma CountLookedAgrees(c: CacheValue, m: Cluster, key: string, domain: string, selector: Labels)
    requires Agrees(c, m) && Clean(selector)
    ensures Agrees(CountLooked(c, m, key, domain, selector), m)
  {
    hide DomainCounts, MatchingPods, SelectorKey, ParseKey, Clean;
    SameMatching(m, key, domain, selector);
  }

  // ----- Binding a pod -----

  lemma BindMatching(m: Cluster, p: PodId, n: NodeId, key: string, domain: string, selector: Labels)
    requires CanBind(m, p, n)
    ensures p !in MatchingPods(m, key, domain, selector)
    ensures MatchingPods(BindPod(m, p, n), key, domain, selector) ==
            MatchingPods(m, key, domain, selector) +
            (if InDomain(m, n, key, domain) && Matches(m.Pod(p).labels, selector) then {p} else {})
  {
    var m' := BindPod(m, p, n);
    forall q | q in m.pods.live
      ensures q != p ==> (Counts(m', q, key, domain, selector) <==> Counts(m, q, key, domain, selector))
      ensures q == p ==>
                (Counts(m', q, key, domain, selector) <==>
                 InDomain(m, n, key, domain) && Matches(m.Pod(p).labels, selector))
    {
      assert forall k :: InDomain(m', k, key, domain) <==> InDomain(m, k, key, domain);
    }
  }

  lemma BindDomains(m: Cluster, p: PodId, n: NodeId, key: string)
    ensures Domains(BindPod(m, p, n), key) == Domains(m, key)
  {
    var m' := BindPod(m, p, n);
    assert forall k :: k in m.nodes.live ==> m'.Node(k).labels == m.Node(k).labels;
    forall d
      ensures d in Domains(m', key) <==> d in Domains(m, key)
    {
      if d in Domains(m, key) {
        var k :| k in m.nodes.live && Lookup(m.Node(k).labels, key) == Some(d);
        NodeDomain(m', k, key);
      }
      if d in Domains(m', key) {
        var k :| k in m'.nodes.live && Lookup(m'.Node(k).labels, key) == Some(d);
        NodeDomain(m, k, key);
      }
    }
  }

  lemma BindCount(m: Cluster, p: PodId, n: NodeId, key: string, domain: string, selector: Labels)
    requires CanBind(m, p, n)
    ensures |MatchingPods(BindPod(m, p, n), key, domain, selector)| ==
            |MatchingPods(m, key, domain, selector)| +
            (if InDomain(m, n, key, domain) && Matches(m.Pod(p).labels, selector) then 1 else 0)
  {
    hide MatchingPods, BindPod;
    BindMatching(m, p, n, key, domain, selector);
  }

  /** A bind adds one to the count of the node's domain, if the pod matches. */
  lemma BindCounts(m: Cluster, p: PodId, n: NodeId, key: string, selector: Labels)
    requires CanBind(m, p, n)
    ensures var domain := if Matches(m.Pod(p).labels, selector) then Lookup(m.Node(n).labels, key) else None;
            DomainCounts(BindPod(m, p, n), key, selector) ==
            match domain
            case None => DomainCounts(m, key, selector)
            case Some(d) => Bumped(DomainCounts(m, key, selector), d)
  {
    if Lookup(m.Node(n).labels, key).Some? {
      NodeDomain(m, n, key);
    }
    hide MatchingPods, BindPod, Domains, Matches, Lookup;
    BindDomains(m, p, n, key);
    forall d | d in Domains(m, key)
      ensures |MatchingPods(BindPod(m, p, n), key, d, selector)| ==
              |MatchingPods(m, key, d, selector)| +
              (if InDomain(m, n, key, d) && Matches(m.Pod(p).labels, selector) then 1 else 0)
    {
      BindCount(m, p, n, key, d, selector);
    }
  }

  lemma BumpedMinBounds(counts: map<string, int>, min: int, domain: string)
    requires domain in counts
    ensures min <= MinCount(counts) ==> BumpedMin(counts, min, domain) <= MinCount(Bumped(counts, domain))
    ensures min == MinCount(counts) ==> BumpedMin(counts, min, domain) == MinCount(Bumped(counts, domain))
  {
    var after := Bumped(counts, domain);
    assert domain in after;
    var low :| low in after && after[low] == MinCount(after);
    if min == MinCount(counts) && BumpedMin(counts, min, domain) == min {
      if counts[domain] == min {
        var d :| d in after && after[d] == counts[domain];
      } else {
        var d :| d in counts && counts[d] == MinCount(counts);
        assert after[d] == counts[d];
      }
    }
  }

  lemma SpreadAfterBind(counts: map<string, int>, min: int, m: Cluster, p: PodId, n: NodeId, k: SpreadKey)
    requires CanBind(m, p, n) && counts == DomainCounts(m, k.0, ParseKey(k.1))
    ensures var pod, node := m.Pod(p), m.Node(n);
            var counts', min' := CountsAfterBind(counts, pod, node, k), MinAfterBind(counts, min, pod, node, k);
            && counts' == DomainCounts(BindPod(m, p, n), k.0, ParseKey(k.1))
            && (min <= MinCount(counts) ==> min' <= MinCount(counts'))
            && (min == MinCount(counts) ==> min' == MinCount(counts'))
  {
    BindCounts(m, p, n, k.0, ParseKey(k.1));
    if BoundDomain(m.Pod(p), m.Node(n), k).Some? {
      NodeDomain(m, n, k.0);
      hide MatchingPods, BindPod, Domains, BumpedMin, Bumped;
      BumpedMinBounds(counts, min, BoundDomain(m.Pod(p), m.Node(n), k).value);
    }
  }

  /** Reporting a bind keeps the caches in agreement, and minima exact or low as they were. */
  lemma PodBoundAgrees(c: CacheValue, m: Cluster, p: PodId, n: NodeId)
    requires CanBind(m, p, n) && Agrees(c, m)
    ensures Agrees(PodBound(c, m.Pod(p), m.Node(n)), BindPod(m, p, n))
    ensures MinimaLow(c) ==> MinimaLow(PodBound(c, m.Pod(p), m.Node(n)))
    ensures MinimaExact(c) ==> MinimaExact(PodBound(c, m.Pod(p), m.Node(n)))
  {
    hide BindPod, DomainCounts, MatchingPods, CountsAfterBind, MinAfterBind, ParseKey, Matches;
    var m' := BindPod(m, p, n);
    var c' := PodBound(c, m.Pod(p), m.Node(n));
    forall k | k in c.spreadCounts
      ensures c'.spreadCounts[k] == DomainCounts(m', k.0, ParseKey(k.1))
      ensures c.spreadMin[k] <= MinCount(c.spreadCounts[k]) ==> c'.spreadMin[k] <= MinCount(c'.spreadCounts[k])
      ensures c.spreadMin[k] == MinCount(c.spreadCounts[k]) ==> c'.spreadMin[k] == MinCount(c'.spreadCounts[k])
    {
      SpreadAfterBind(c.spreadCounts[k], c.spreadMin[k], m, p, n, k);
    }
    forall k | k in c.affinityMatch
      ensures c'.affinityMatch[k] == (MatchingPods(m', k.0, k.1, ParseKey(k.2)) != {})
    {
      BindMatching(m, p, n, k.0, k.1, ParseKey(k.2));
    }
    forall k | k in c.affinityCount
      ensures c'.affinityCount[k] == |MatchingPods(m', k.0, k.1, ParseKey(k.2))|
    {
      BindCount(m, p, n, k.0, k.1, ParseKey(k.2));
    }
  }

  // ----- Adding a node -----

  lemma AddNodeMatching(m: Cluster, node: Node, key: string, domain: string, selector: Labels)
    requires Inv(m)
    ensures MatchingPods(AddNode(m, node), key, domain, selector) == MatchingPods(m, key, domain, selector)
  {
    var m', h := AddNode(m, node), NextHandle(m.nodes);
    InsertFacts(m.nodes, node);
    forall q | q in m.pods.live
      ensures Counts(m', q, key, domain, selector) <==> Counts(m, q, key, domain, selector)
    {
      assert PodAgrees(m, q);
      assert forall k :: k != h ==> (InDomain(m', k, key, domain) <==> InDomain(m, k, key, domain));
    }
  }

  lemma AddNodeDomains(m: Cluster, node: Node, key: string)
    requires Inv(m)
    ensures Domains(AddNode(m, node), key) ==
            Domains(m, key) + (match Lookup(node.labels, key) case None => {} case Some(d) => {d})
  {
    var m', h := AddNode(m, node), NextHandle(m.nodes);
    InsertFacts(m.nodes, node);
    assert !m.HasNode(h) && m'.Node(h) == node;
    forall d
      ensures d in Domains(m', key) <==> d in Domains(m, key) || Lookup(node.labels, key) == Some(d)
    {
      if d in Domains(m, key) {
        var k :| k in m.nodes.live && Lookup(m.Node(k).labels, key) == Some(d);
        NodeDomain(m', k, key);
      }
      if d in Domains(m', key) {
        var k :| k in m'.nodes.live && Lookup(m'.Node(k).labels, key) == Some(d);
        if k != h {
          NodeDomain(m, k, key);
        }
      }
      if Lookup(node.labels, key) == Some(d) {
        NodeDomain(m', h, key);
      }
    }
  }

  lemma NoMatchOutsideDomains(m: Cluster, key: string, domain: string, selector: Labels)
    ensures domain !in Domains(m, key) ==> MatchingPods(m, key, domain, selector) == {}
  {
    forall p | p in MatchingPods(m, key, domain, selector)
      ensures domain in Domains(m, key)
    {
      NodeDomain(m, m.Pod(p).node.value, key);
    }
  }

  lemma AddNodeCounts(m: Cluster, node: Node, key: string, selector: Labels)
    requires Inv(m)
    ensures DomainCounts(AddNode(m, node), key, selector) ==
            match Lookup(node.labels, key)
            case None => DomainCounts(m, key, selector)
            case Some(d) => if d in DomainCounts(m, key, selector) then DomainCounts(m, key, selector)
                            else DomainCounts(m, key, selector)[d := 0]
  {
    AddNodeDomains(m, node, key);
    forall d
      ensures MatchingPods(AddNode(m, node), key, d, selector) == MatchingPods(m, key, d, selector)
      ensures d !in Domains(m, key) ==> MatchingPods(m, key, d, selector) == {}
    {
      AddNodeMatching(m, node, key, d, selector);
      NoMatchOutsideDomains(m, key, d, selector);
    }
  }

  /** The node brings a domain the key has not seen, or one of the key's domains is empty already. */
  ghost predicate BringsEmptyDomain(c: CacheValue, node: Node, k: SpreadKey)
    requires k in c.spreadCounts
  {
    || (Lookup(node.labels, k.0).Some? && Lookup(node.labels, k.0).value !in c.spreadCounts[k])
    || MinCount(c.spreadCounts[k]) == 0
  }

  /** Reporting a node keeps the counts exact and the minima low; exact minima
      stay exact exactly when every remembered key then has an empty domain. */
  lemma NodeAddedAgrees(c: CacheValue, m: Cluster, node: Node)
    requires Inv(m) && Agrees(c, m)
    ensures Agrees(NodeAdded(c, node), AddNode(m, node))
    ensures MinimaLow(c) ==> MinimaLow(NodeAdded(c, node))
    ensures MinimaExact(c) ==>
              (MinimaExact(NodeAdded(c, node)) <==> forall k :: k in c.spreadCounts ==> BringsEmptyDomain(c, node, k))
  {
    var m', c' := AddNode(m, node), NodeAdded(c, node);
    forall k | k in c.spreadCounts
      ensures c'.spreadCounts[k] == DomainCounts(m', k.0, ParseKey(k.1))
      ensures c'.spreadMin[k] <= MinCount(c'.spreadCounts[k])
      ensures c.spreadMin[k] == MinCount(c.spreadCounts[k]) ==>
                (c'.spreadMin[k] == MinCount(c'.spreadCounts[k]) <==> BringsEmptyDomain(c, node, k))
    {
      AddNodeCounts(m, node, k.0, ParseKey(k.1));
      NodeAddedMin(c, node, k);
    }
    forall k | k in c.affinityMatch
      ensures MatchingPods(m', k.0, k.1, ParseKey(k.2)) == MatchingPods(m, k.0, k.1, ParseKey(k.2))
    {
      AddNodeMatching(m, node, k.0, k.1, ParseKey(k.2));
    }
    forall k | k in c.affinityCount
      ensures MatchingPods(m', k.0, k.1, ParseKey(k.2)) == MatchingPods(m, k.0, k.1, ParseKey(k.2))
    {
      AddNodeMatching(m, node, k.0, k.1, ParseKey(k.2));
    }
    if MinimaExact(c) && MinimaExact(c') {
      forall k | k in c.spreadCounts
        ensures BringsEmptyDomain(c, node, k)
      {
        assert k in c.spreadMin && k in c'.spreadMin && k in c'.spreadCounts;
      }
    }
  }

  lemma NodeAddedMin(c: CacheValue, node: Node, k: SpreadKey)
    requires k in c.spreadCounts && k in c.spreadMin
    requires forall d :: d in c.spreadCounts[k] ==> c.spreadCounts[k][d] >= 0
    ensures var c' := NodeAdded(c, node);
            && c'.spreadMin[k] <= MinCount(c'.spreadCounts[k])
            && (c.spreadMin[k] == MinCount(c.spreadCounts[k]) ==>
                  (c'.spreadMin[k] == MinCount(c'.spreadCounts[k]) <==> BringsEmptyDomain(c, node, k)))
  {
    var counts, after := c.spreadCounts[k], CountsAfterNode(c.spreadCounts[k], node, k);
    if after != counts {
      var d := Lookup(node.labels, k.0).value;
      assert after[d] == 0;
      assert IsMinCount(after, 0);
      MinCountIs(after, 0);
    }
  }

  // ----- Whole runs -----

  /** What happens to the cluster and is reported to the caches, and the lookups in between. */
  datatype CacheEvent =
    | PodBoundEvent(p: PodId, n: NodeId)
    | NodeAddedEvent(node: Node)
    | CountsEvent(key: string, selector: Labels)
    | MatchEvent(key: string, domain: string, selector: Labels, anti: bool)
    | CountEvent(key: string, domain: string, selector: Labels)

  /** Binds succeed without overflow, nodes arrive empty, selectors are separator-free. */
  predicate Reported(m: Cluster, e: CacheEvent) {
    match e
    case PodBoundEvent(p, n) => CanBind(m, p, n) && SumFits(m, p, n)
    case NodeAddedEvent(node) => Admissible(m, AddNodeOp(node))
    case CountsEvent(key, selector) => Clean(selector)
    case MatchEvent(key, domain, selector, anti) => Clean(selector)
    case CountEvent(key, domain, selector) => Clean(selector)
  }

  ghost function ClusterAfter(m: Cluster, e: CacheEvent): Cluster
    requires Inv(m)
  {
    match e
    case PodBoundEvent(p, n) => BindPod(m, p, n)
    case NodeAddedEvent(node) => AddNode(m, node)
    case _ => m
  }

  ghost function CachesAfter(c: CacheValue, m: Cluster, e: CacheEvent): CacheValue
    requires Reported(m, e)
  {
    match e
    case PodBoundEvent(p, n) => PodBound(c, m.Pod(p), m.Node(n))
    case NodeAddedEvent(node) => NodeAdded(c, node)
    case CountsEvent(key, selector) => CountsLooked(c, m, key, selector)
    case MatchEvent(key, domain, selector, anti) => MatchLooked(c, m, key, domain, selector, anti)
    case CountEvent(key, domain, selector) => CountLooked(c, m, key, domain, selector)
  }

  lemma EventInv(m: Cluster, e: CacheEvent)
    requires Inv(m) && Reported(m, e)
    ensures Inv(ClusterAfter(m, e))
  {
    match e
    case PodBoundEvent(p, n) => BindPodInv(m, p, n);
    case NodeAddedEvent(node) => AddNodeInv(m, node);
    case _ =>
  }

  lemma EventAgrees(c: CacheValue, m: Cluster, e: CacheEvent)
    requires Inv(m) && Reported(m, e) && Agrees(c, m)
    ensures Agrees(CachesAfter(c, m, e), ClusterAfter(m, e))
    ensures MinimaLow(c) ==> MinimaLow(CachesAfter(c, m, e))
    ensures (MinimaExact(c) &&
             (e.NodeAddedEvent? ==> forall k :: k in c.spreadCounts ==> BringsEmptyDomain(c, e.node, k)))
            ==> MinimaExact(CachesAfter(c, m, e))
  {
    match e
    case PodBoundEvent(p, n) => PodBoundAgrees(c, m, p, n);
    case NodeAddedEvent(node) => NodeAddedAgrees(c, m, node);
    case CountsEvent(key, selector) => CountsLookedAgrees(c, m, key, selector);
    case MatchEvent(key, domain, selector, anti) => MatchLookedAgrees(c, m, key, domain, selector, anti);
    case CountEvent(key, domain, selector) => CountLookedAgrees(c, m, key, domain, selector);
  }

  /** Every event of the run is reported, as the clusters and caches unfold. */
  ghost predicate ReportedRun(c: CacheValue, m: Cluster, events: seq<CacheEvent>)
    requires Inv(m)
    decreases |events|
  {
    events == [] ||
    (Reported(m, events[0]) &&
     (EventInv(m, events[0]); ReportedRun(CachesAfter(c, m, events[0]), ClusterAfter(m, events[0]), events[1..])))
  }

  /** Every node of the run leaves every key remembered at that time an empty domain. */
  ghost predicate NodesBringDomains(c: CacheValue, m: Cluster, events: seq<CacheEvent>)
    requires Inv(m) && ReportedRun(c, m, events)
    decreases |events|
  {
    events == [] ||
    (&& (events[0].NodeAddedEvent? ==> forall k :: k in c.spreadCounts ==> BringsEmptyDomain(c, events[0].node, k))
     && (EventInv(m, events[0]);
         NodesBringDomains(CachesAfter(c, m, events[0]), ClusterAfter(m, events[0]), events[1..])))
  }

  ghost function RunCaches(c: CacheValue, m: Cluster, events: seq<CacheEvent>): (CacheValue, Cluster)
    requires Inv(m) && ReportedRun(c, m, events)
    decreases |events|
  {
    if events == [] then (c, m)
    else EventInv(m, events[0]); RunCaches(CachesAfter(c, m, events[0]), ClusterAfter(m, events[0]), events[1..])
  }

  /** Over every reported run that starts from agreeing caches, the caches
      agree with recomputation at the end, and no minimum exceeds the true one;
      minima stay exact when every added node brings the remembered keys an
      empty domain. */
  lemma {:induction false} RunAgrees(c: CacheValue, m: Cluster, events: seq<CacheEvent>)
    requires Inv(m) && ReportedRun(c, m, events) && Agrees(c, m)
    ensures var (c', m') := RunCaches(c, m, events);
            && Inv(m') && Agrees(c', m')
            && (MinimaLow(c) ==> MinimaLow(c'))
            && (MinimaExact(c) && NodesBringDomains(c, m, events) ==> MinimaExact(c'))
    decreases |events|
  {
    if events != [] {
      EventInv(m, events[0]);
      EventAgrees(c, m, events[0]);
      hide CachesAfter, ClusterAfter, Inv, Agrees, MinimaLow, MinimaExact, BringsEmptyDomain, Reported;
      RunAgrees(CachesAfter(c, m, events[0]), ClusterAfter(m, events[0]), events[1..]);
    }
  }

  /** Empty caches agree with every cluster. */
  lemma NothingCachedAgrees(m: Cluster)
    ensures Agrees(NOTHING_CACHED, m) && MinimaExact(NOTHING_CACHED) && MinimaLow(NOTHING_CACHED)
  {
  }

  // ----- The caches as they are updated in place -----

  class SchedulingCaches {
    var spreadCounts: map<SpreadKey, map<string, int>>
    var spreadMin: map<SpreadKey, int>
    var affinityMatch: map<MatchKey, bool>
    var affinityCount: map<CountKey, int>

    ghost function Contents(): CacheValue
      reads this
    {
      CacheValue(spreadCounts, spreadMin, affinityMatch, affinityCount)
    }

    /** Counts and minima are remembered together. */
    ghost predicate Valid()
      reads this
    {
      spreadMin.Keys == spreadCounts.Keys
    }

    constructor ()
      ensures Valid() && Contents() == NOTHING_CACHED
    {
      spreadCounts, spreadMin, affinityMatch, affinityCount := map[], map[], map[], map[];
    }

    method Invalidate()
      modifies this
      ensures Valid() && Contents() == NOTHING_CACHED
    {
      spreadCounts, spreadMin, affinityMatch, affinityCount := map[], map[], map[], map[];
    }

    /** `or_insert(0)` for the node's domain under every spread key. */
    method AddDomains(node: Node)
      modifies this`spreadCounts
      ensures spreadCounts == NodeAdded(old(Contents()), node).spreadCounts
    {
      ghost var counts := spreadCounts;
      var keys := spreadCounts.Keys;
      while keys != {}
        invariant keys <= counts.Keys == spreadCounts.Keys
        invariant forall k :: k in counts ==>
                    spreadCounts[k] == if k in keys then counts[k] else CountsAfterNode(counts[k], node, k)
        decreases keys
      {
        var k :| k in keys;
        var domain := Lookup(node.labels, k.0);
        if domain.Some? && domain.value !in spreadCounts[k] {
          spreadCounts := spreadCounts[k := spreadCounts[k][domain.value := 0]];
        }
        keys := keys - {k};
      }
    }

    method OnNodeAdded(node: Node)
      requires Valid()
      modifies this
      ensures Valid()
      ensures Contents() == NodeAdded(old(Contents()), node)
    {
      AddDomains(node);
      hide CountsAfterNode;
      spreadMin := map k | k in spreadMin :: Min(spreadMin[k], 0);
    }

    /** Count a bound pod under one spread key. */
    method CountBoundPod(k: SpreadKey, pod: Pod, node: Node)
      requires k in spreadCounts
      modifies this`spreadCounts, this`spreadMin
      ensures spreadCounts == old(spreadCounts)[k := CountsAfterBind(old(spreadCounts[k]), pod, node, k)]
      ensures spreadMin == if k !in old(spreadMin) then old(spreadMin)
                           else old(spreadMin)[k := MinAfterBind(old(spreadCounts[k]), old(spreadMin)[k], pod, node, k)]
    {
      if Matches(pod.labels, ParseKey(k.1)) {
        var domain := Lookup(node.labels, k.0);
        if domain.Some? {
          var was := CountIn(spreadCounts[k], domain.value);
          var counts := spreadCounts[k][domain.value := was + 1];
          spreadCounts := spreadCounts[k := counts];
          if k in spreadMin && was == spreadMin[k] && !AnyAt(counts, was) {
            spreadMin := spreadMin[k := was + 1];
          }
        }
      }
    }

    /** Count a bound pod under every spread key. */
    method CountBoundPodUnderKeys(pod: Pod, node: Node)
      modifies this`spreadCounts, this`spreadMin
      ensures Contents() == old(Contents()).(spreadCounts := PodBound(old(Contents()), pod, node).spreadCounts,
                                             spreadMin := PodBound(old(Contents()), pod, node).spreadMin)
    {
      hide CountsAfterBind, MinAfterBind, Lands;
      ghost var counts, minima := spreadCounts, spreadMin;
      var keys := spreadCounts.Keys;
      while keys != {}
        invariant keys <= counts.Keys == spreadCounts.Keys && spreadMin.Keys == minima.Keys
        invariant forall k :: k in counts ==>
                    spreadCounts[k] == if k in keys then counts[k] else CountsAfterBind(counts[k], pod, node, k)
        invariant forall k :: k in minima ==>
                    spreadMin[k] == if k in keys || k !in counts then minima[k]
                                    else MinAfterBind(counts[k], minima[k], pod, node, k)
        decreases keys
      {
        var k :| k in keys;
        CountBoundPod(k, pod, node);
        keys := keys - {k};
      }
    }

    method OnPodBound(pod: Pod, node: Node)
      requires Valid()
      modifies this
      ensures Valid()
      ensures Contents() == PodBound(old(Contents()), pod, node)
    {
      CountBoundPodUnderKeys(pod, node);
      hide CountsAfterBind, MinAfterBind, Lands;
      affinityMatch := map k | k in affinityMatch :: affinityMatch[k] || Lands(pod, node, k.0, k.1, k.2);
      affinityCount := map k | k in affinityCount ::
        affinityCount[k] + (if Lands(pod, node, k.0, k.1, k.2) then 1 else 0);
    }

    method GetDomainCounts(state: ClusterState, key: string, selector: Labels)
      returns (counts: map<string, int>, min: int)
      requires state.Valid() && Valid()
      modifies this
      ensures Valid()
      ensures Contents() == CountsLooked(old(Contents()), state.Model(), key, selector)
      ensures var k := (key, SelectorKey(selector));
              k in Contents().spreadCounts && k in Contents().spreadMin &&
              counts == Contents().spreadCounts[k] && min == Contents().spreadMin[k]
    {
      hide Arena.Valid, SelectorKey;
      var k := (key, SelectorKey(selector));
      if k !in spreadCounts {
        counts := CountDomains(state, key, selector);
        min := SmallestCount(counts);
        spreadMin := spreadMin[k := min];
        spreadCounts := spreadCounts[k := counts];
      } else {
        counts, min := spreadCounts[k], spreadMin[k];
      }
    }

    method GetAffinityMatch(state: ClusterState, key: string, domain: string, term: PodAffinityTerm)
      returns (found: bool)
      requires state.Valid() && Inv(state.Model())
      modifies this
      ensures old(Valid()) ==> Valid()
      ensures Contents() == MatchLooked(old(Contents()), state.Model(), key, domain, term.selector, term.anti)
      ensures var k := (key, domain, SelectorKey(term.selector), term.anti);
              k in Contents().affinityMatch && found == Contents().affinityMatch[k]
    {
      hide Arena.Valid, Inv, SelectorKey;
      var k := (key, domain, SelectorKey(term.selector), term.anti);
      if k !in affinityMatch {
        found := HasMatchingPod(state, key, domain, term.selector);
        affinityMatch := affinityMatch[k := found];
      } else {
        found := affinityMatch[k];
      }
    }

    method GetAffinityCount(state: ClusterState, key: string, domain: string, term: PodAffinityTerm)
      returns (count: int)
      requires state.Valid() && Inv(state.Model())
      modifies this
      ensures old(Valid()) ==> Valid()
      ensures Contents() == CountLooked(old(Contents()), state.Model(), key, domain, term.selector)
      ensures var k := (key, domain, SelectorKey(term.selector));
              k in Contents().affinityCount && count == Contents().affinityCount[k]
    {
      hide Arena.Valid, Inv, SelectorKey;
      var k := (key, domain, SelectorKey(term.selector));
      if k !in affinityCount {
        count := CountMatchingPods(state, key, domain, term.selector);
        affinityCount := affinityCount[k := count];
      } else {
        count := affinityCount[k];
      }
    }
  }
}
