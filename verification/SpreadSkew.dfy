/** What the topology spread filter guarantees over runs of scheduler binds: the
    skew stays within the limit exactly as long as the shortcut for empty nodes
    meets no full domain, which it never does for keys unique per node. */
module SpreadSkew {
  import opened Types
  import opened Arenas
  import opened ClusterModel
  import opened Topology
  import opened Filters
  import opened Scoring
  import opened Caches
  import opened Scheduling
  import opened SchedulingPass
  import opened Examples

  /** No two live nodes give the key the same value, as with a hostname. */
  ghost predicate UniquePerNode(m: Cluster, key: string) {
    forall a, b :: m.HasNode(a) && m.HasNode(b) && a != b && Lookup(m.Node(a).labels, key).Some? ==>
      Lookup(m.Node(a).labels, key) != Lookup(m.Node(b).labels, key)
  }

  function CountOf(m: Cluster, c: SpreadConstraint, domain: string): nat {
    |MatchingPods(m, c.topologyKey, domain, c.selector)|
  }

  /** The largest and smallest domain counts differ by at most the limit. */
  ghost predicate WithinSkew(m: Cluster, c: SpreadConstraint) {
    forall d, e :: d in Domains(m, c.topologyKey) && e in Domains(m, c.topologyKey) ==>
      CountOf(m, c, d) - CountOf(m, c, e) <= c.maxSkew
  }

  /** A hard constraint with a limit of at least one. */
  predicate Hard(c: SpreadConstraint) {
    c.whenUnsatisfiable.DoNotSchedule? && 1 <= c.maxSkew <= U32_MAX
  }

  /** Every pod the constraint counts carries the constraint. */
  ghost predicate CarriedByMatching(m: Cluster, c: SpreadConstraint) {
    forall p :: m.HasPod(p) && Matches(m.Pod(p).labels, c.selector) ==> c in m.Pod(p).constraints.topologySpread
  }

  /** A node without pods is alone in its domain, so the domain counts nothing. */
  lemma EmptyNodeEmptyDomain(m: Cluster, n: NodeId, key: string, domain: string, selector: Labels)
    requires Inv(m) && UniquePerNode(m, key) && InDomain(m, n, key, domain) && m.Node(n).pods == []
    ensures MatchingPods(m, key, domain, selector) == {}
  {
    assert NodeAgrees(m, n);
    forall p | p in m.pods.live
      ensures p !in MatchingPods(m, key, domain, selector)
    {
      assert m.Pod(p).node.Some? && InDomain(m, m.Pod(p).node.value, key, domain) ==> m.RunsOn(p, n);
    }
  }

  lemma CountsBound(m: Cluster, c: SpreadConstraint, domain: string)
    requires domain in Domains(m, c.topologyKey)
    ensures UncachedSkew(DomainCounts(m, c.topologyKey, c.selector), domain) ==
            CountOf(m, c, domain) + 1 - MinCount(DomainCounts(m, c.topologyKey, c.selector))
    ensures forall d :: d in Domains(m, c.topologyKey) ==>
              MinCount(DomainCounts(m, c.topologyKey, c.selector)) <= CountOf(m, c, d)
  {
    var counts := DomainCounts(m, c.topologyKey, c.selector);
    UncachedSkewIs(counts, domain);
    forall d | d in Domains(m, c.topologyKey)
      ensures MinCount(counts) <= CountOf(m, c, d)
    {
      assert d in counts;
      hide Domains, MatchingPods;
    }
  }

  /** One more pod in the domain would exceed the limit. */
  ghost predicate TooFull(m: Cluster, c: SpreadConstraint, domain: string) {
    CountOf(m, c, domain) - MinCount(DomainCounts(m, c.topologyKey, c.selector)) >= c.maxSkew
  }

  /** The shortcut accepts every empty node. The full check would accept it
      exactly when its domain is not too full, and the limit survives the
      conversion to a signed number. */
  lemma ShortcutAgreesExactly(m: Cluster, n: NodeId, c: SpreadConstraint, domain: string)
    requires InDomain(m, n, c.topologyKey, domain) && m.Node(n).pods == [] && 1 <= c.maxSkew <= U32_MAX
    ensures SpreadAllows(m, m.Node(n), c)
    ensures UncachedSkew(DomainCounts(m, c.topologyKey, c.selector), domain) <= AsI32(c.maxSkew) <==>
            c.maxSkew < 0x8000_0000 && !TooFull(m, c, domain)
  {
    NodeDomain(m, n, c.topologyKey);
    CountsBound(m, c, domain);
    MinimumIsACount(m, c, domain);
  }

  /** For keys unique per node the shortcut decides as the full check does,
      exactly when the limit survives the conversion. */
  lemma ShortcutAgrees(m: Cluster, n: NodeId, c: SpreadConstraint)
    requires Inv(m) && UniquePerNode(m, c.topologyKey) && 1 <= c.maxSkew <= U32_MAX
    requires m.HasNode(n) && m.Node(n).pods == [] && Lookup(m.Node(n).labels, c.topologyKey).Some?
    ensures SpreadAllows(m, m.Node(n), c)
    ensures var domain := Lookup(m.Node(n).labels, c.topologyKey).value;
            UncachedSkew(DomainCounts(m, c.topologyKey, c.selector), domain) <= AsI32(c.maxSkew) <==>
              c.maxSkew < 0x8000_0000
  {
    var domain := Lookup(m.Node(n).labels, c.topologyKey).value;
    ShortcutAgreesExactly(m, n, c, domain);
    EmptyDomainIsNotFull(m, n, c, domain);
  }

  /** An empty node of a key unique per node is never in a domain that is too full. */
  lemma EmptyDomainIsNotFull(m: Cluster, n: NodeId, c: SpreadConstraint, domain: string)
    requires Inv(m) && UniquePerNode(m, c.topologyKey) && c.maxSkew >= 1
    requires InDomain(m, n, c.topologyKey, domain) && m.Node(n).pods == []
    ensures !TooFull(m, c, domain)
  {
    NodeDomain(m, n, c.topologyKey);
    EmptyNodeEmptyDomain(m, n, c.topologyKey, domain, c.selector);
    MinimumIsACount(m, c, domain);
  }

  lemma MinimumIsACount(m: Cluster, c: SpreadConstraint, domain: string)
    requires domain in Domains(m, c.topologyKey)
    ensures 0 <= MinCount(DomainCounts(m, c.topologyKey, c.selector)) <= CountOf(m, c, domain)
    ensures exists e :: e in Domains(m, c.topologyKey) &&
                        CountOf(m, c, e) == MinCount(DomainCounts(m, c.topologyKey, c.selector))
  {
    var counts := DomainCounts(m, c.topologyKey, c.selector);
    assert domain in counts;
    var e :| e in counts && counts[e] == MinCount(counts);
    assert CountOf(m, c, e) == MinCount(counts);
  }

  // ----- One bind -----

  lemma CountAfterBind(m: Cluster, p: PodId, n: NodeId, c: SpreadConstraint)
    requires CanBind(m, p, n)
    ensures Domains(BindPod(m, p, n), c.topologyKey) == Domains(m, c.topologyKey)
    ensures forall d :: CountOf(BindPod(m, p, n), c, d) == CountOf(m, c, d) +
                        (if InDomain(m, n, c.topologyKey, d) && Matches(m.Pod(p).labels, c.selector) then 1 else 0)
  {
    hide MatchingPods, BindPod, Domains;
    BindDomains(m, p, n, c.topologyKey);
    forall d
      ensures CountOf(BindPod(m, p, n), c, d) == CountOf(m, c, d) +
              (if InDomain(m, n, c.topologyKey, d) && Matches(m.Pod(p).labels, c.selector) then 1 else 0)
    {
      BindCount(m, p, n, c.topologyKey, d, c.selector);
    }
  }

  /** For every key: the bind of a counted pod keeps the domains within the
      limit exactly when the domain it lands in is not too full. */
  lemma BindKeepsSkewExactly(m: Cluster, p: PodId, n: NodeId, c: SpreadConstraint, domain: string)
    requires CanBind(m, p, n) && Matches(m.Pod(p).labels, c.selector) && InDomain(m, n, c.topologyKey, domain)
    requires c.maxSkew >= 1 && WithinSkew(m, c)
    ensures WithinSkew(BindPod(m, p, n), c) <==> !TooFull(m, c, domain)
  {
    hide CountOf, Domains, DomainCounts, BindPod, UncachedSkew;
    var m', min := BindPod(m, p, n), MinCount(DomainCounts(m, c.topologyKey, c.selector));
    NodeDomain(m, n, c.topologyKey);
    CountsBound(m, c, domain);
    MinimumIsACount(m, c, domain);
    hide MinCount, IsMinCount;
    CountAfterBind(m, p, n, c);
    assert forall d :: CountOf(m', c, d) == CountOf(m, c, d) + (if d == domain then 1 else 0);
    hide InDomain, Matches;
    if TooFull(m, c, domain) {
      var e :| e in Domains(m, c.topologyKey) && CountOf(m, c, e) == min;
      assert CountOf(m', c, domain) - CountOf(m', c, e) > c.maxSkew;
    }
  }

  /** A pod that the constraint does not count moves no count. */
  lemma UncountedKeepsSkew(m: Cluster, p: PodId, n: NodeId, c: SpreadConstraint)
    requires CanBind(m, p, n) && !Matches(m.Pod(p).labels, c.selector) && WithinSkew(m, c)
    ensures WithinSkew(BindPod(m, p, n), c)
  {
    CountAfterBind(m, p, n, c);
    hide CountOf, Domains, BindPod;
  }

  /** The node passes by the shortcut although its domain is too full. */
  ghost predicate Overfills(m: Cluster, p: PodId, n: NodeId, c: SpreadConstraint) {
    && CanBind(m, p, n) && Matches(m.Pod(p).labels, c.selector) && m.Node(n).pods == []
    && exists domain :: InDomain(m, n, c.topologyKey, domain) && TooFull(m, c, domain)
  }

  /** For every key: a bind that the spread filter accepts keeps the domains
      within the limit, unless the node passed by the shortcut although its
      domain is too full; then it never does. */
  lemma AcceptedBindKeepsSkew(m: Cluster, p: PodId, n: NodeId, c: SpreadConstraint)
    requires CanBind(m, p, n) && PassesSpread(m, m.Pod(p), m.Node(n))
    requires Hard(c) && CarriedByMatching(m, c) && WithinSkew(m, c)
    ensures WithinSkew(BindPod(m, p, n), c) <==> !Overfills(m, p, n, c)
  {
    if Matches(m.Pod(p).labels, c.selector) {
      assert c in m.Pod(p).constraints.topologySpread;
      assert SpreadAllows(m, m.Node(n), c);
      var domain := Lookup(m.Node(n).labels, c.topologyKey).value;
      NodeDomain(m, n, c.topologyKey);
      CountsBound(m, c, domain);
      hide PassesSpread, CarriedByMatching, WithinSkew, MatchingPods, Domains, MinCount, DomainCounts;
      BindKeepsSkewExactly(m, p, n, c, domain);
      assert forall d :: InDomain(m, n, c.topologyKey, d) ==> d == domain;
    } else {
      UncountedKeepsSkew(m, p, n, c);
    }
  }

  /** For keys unique per node every accepted bind keeps the limit. */
  lemma BindKeepsSkew(m: Cluster, p: PodId, n: NodeId, c: SpreadConstraint)
    requires Inv(m) && CanBind(m, p, n) && PassesSpread(m, m.Pod(p), m.Node(n))
    requires Hard(c) && UniquePerNode(m, c.topologyKey) && CarriedByMatching(m, c) && WithinSkew(m, c)
    ensures WithinSkew(BindPod(m, p, n), c)
  {
    AcceptedBindKeepsSkew(m, p, n, c);
    NeverOverfills(m, p, n, c);
  }

  lemma NeverOverfills(m: Cluster, p: PodId, n: NodeId, c: SpreadConstraint)
    requires Inv(m) && UniquePerNode(m, c.topologyKey) && c.maxSkew >= 1
    ensures !Overfills(m, p, n, c)
  {
    hide Inv, UniquePerNode, TooFull;
    if Overfills(m, p, n, c) {
      var domain :| InDomain(m, n, c.topologyKey, domain) && TooFull(m, c, domain);
      EmptyDomainIsNotFull(m, n, c, domain);
    }
  }

  // ----- Runs of scheduler binds -----

  /** Offer each pod to the scheduler and carry out the binds it decides on. */
  ghost function BindRun(m: Cluster, ids: seq<PodId>, strategy: Strategy): (m': Cluster)
    requires Inv(m)
    ensures Inv(m') && SameButPlacement(m, m')
  {
    if ids == [] then
      SameAsItself(m);
      m
    else
      var before, p := BindRun(m, ids[..|ids| - 1], strategy), ids[|ids| - 1];
      var r := ScheduleOne(before, p, strategy);
      if r.BoundTo? then RunStep(m, before, p, strategy); BindPod(before, p, r.node) else before
  }

  lemma RunStep(m: Cluster, before: Cluster, p: PodId, strategy: Strategy)
    requires Inv(before) && SameButPlacement(m, before) && ScheduleOne(before, p, strategy).BoundTo?
    ensures var m' := BindPod(before, p, ScheduleOne(before, p, strategy).node);
            Inv(m') && SameButPlacement(m, m')
  {
    var r := ScheduleOne(before, p, strategy);
    ScheduleIsJustified(before, p, strategy);
    PlaceFacts(before, p, r);
    hide Inv, ScheduleOne, Justified, SameSlots, BindPod, ExcessNotGrown;
    SameButPlacementTransitive(m, before, BindPod(before, p, r.node));
  }

  lemma PlacementKeepsShape(m: Cluster, m': Cluster, c: SpreadConstraint)
    requires SameButPlacement(m, m')
    ensures UniquePerNode(m, c.topologyKey) ==> UniquePerNode(m', c.topologyKey)
    ensures CarriedByMatching(m, c) ==> CarriedByMatching(m', c)
  {
    forall n
      ensures m'.HasNode(n) <==> m.HasNode(n)
      ensures m.HasNode(n) ==> m'.Node(n).labels == m.Node(n).labels
    {
      assert n in m'.nodes.live.Keys <==> n in m.nodes.live.Keys;
      assert m.HasNode(n) ==> Unloaded(m'.Node(n)) == Unloaded(m.Node(n));
    }
    forall p
      ensures m'.HasPod(p) <==> m.HasPod(p)
      ensures m.HasPod(p) ==> m'.Pod(p).labels == m.Pod(p).labels && m'.Pod(p).constraints == m.Pod(p).constraints
    {
      assert p in m'.pods.live.Keys <==> p in m.pods.live.Keys;
      assert m.HasPod(p) ==> Unplaced(m'.Pod(p)) == Unplaced(m.Pod(p));
    }
  }

  /** The scheduler's bind of the pod would exceed the limit through the shortcut. */
  ghost predicate OverfillsNext(m: Cluster, p: PodId, strategy: Strategy, c: SpreadConstraint)
    requires Inv(m)
  {
    ScheduleOne(m, p, strategy).BoundTo? && Overfills(m, p, ScheduleOne(m, p, strategy).node, c)
  }

  lemma BoundKeepsSkew(m: Cluster, p: PodId, strategy: Strategy, c: SpreadConstraint)
    requires Inv(m) && ScheduleOne(m, p, strategy).BoundTo?
    requires Hard(c) && CarriedByMatching(m, c) && WithinSkew(m, c)
    ensures WithinSkew(BindPod(m, p, ScheduleOne(m, p, strategy).node), c) <==> !OverfillsNext(m, p, strategy, c)
  {
    InvNodes(m);
    hide Inv, CarriedByMatching, WithinSkew, BindPod, PassesSpread, Consistent, Hard, MatchingPods, TooFull;
    var n := ScheduleOne(m, p, strategy).node;
    BoundIsFeasible(m, m.Pod(p), strategy);
    if CanBind(m, p, n) {
      AcceptedBindKeepsSkew(m, p, n, c);
    } else {
      NoBind(m, p, n);
    }
  }

  lemma InvNodes(m: Cluster)
    requires Inv(m)
    ensures Consistent(m.nodes)
  {
  }

  lemma NoBind(m: Cluster, p: PodId, n: NodeId)
    requires !CanBind(m, p, n)
    ensures BindPod(m, p, n) == m
  {
  }

  /** The limit holds after the first `k` pods of the run. */
  ghost predicate WithinAfter(m: Cluster, ids: seq<PodId>, k: nat, strategy: Strategy, c: SpreadConstraint)
    requires Inv(m) && k <= |ids|
  {
    WithinSkew(BindRun(m, ids[..k], strategy), c)
  }

  /** The `k`-th pod of the run is bound into a full domain by the shortcut. */
  ghost predicate OverfillsAt(m: Cluster, ids: seq<PodId>, k: nat, strategy: Strategy, c: SpreadConstraint)
    requires Inv(m) && k < |ids|
  {
    OverfillsNext(BindRun(m, ids[..k], strategy), ids[k], strategy, c)
  }

  lemma NextKeepsSkew(m: Cluster, ids: seq<PodId>, k: nat, strategy: Strategy, c: SpreadConstraint)
    requires Inv(m) && Hard(c) && CarriedByMatching(m, c) && k < |ids| && WithinAfter(m, ids, k, strategy, c)
    ensures WithinAfter(m, ids, k + 1, strategy, c) <==> !OverfillsAt(m, ids, k, strategy, c)
  {
    var before, p := BindRun(m, ids[..k], strategy), ids[k];
    assert ids[..k + 1][..k] == ids[..k];
    InvNodes(before);
    PlacementKeepsShape(m, before, c);
    hide WithinSkew, CarriedByMatching, Inv, Hard, Consistent, UniquePerNode;
    if ScheduleOne(before, p, strategy).BoundTo? {
      BoundKeepsSkew(before, p, strategy, c);
    }
  }

  lemma WithinAtFirst(m: Cluster, ids: seq<PodId>, strategy: Strategy, c: SpreadConstraint)
    requires Inv(m) && WithinSkew(m, c)
    ensures WithinAfter(m, ids, 0, strategy, c)
  {
    hide Inv, WithinSkew;
  }

  /** Over every run of scheduler binds, for every key and a hard constraint
      carried by every pod it counts: the domain counts stay within the limit all
      along exactly when no step binds into a full domain by the shortcut. */
  lemma {:induction false} RunKeepsSkewExactly(
    m: Cluster, ids: seq<PodId>, n: nat, strategy: Strategy, c: SpreadConstraint)
    requires Inv(m) && Hard(c) && CarriedByMatching(m, c) && WithinSkew(m, c) && n <= |ids|
    ensures (forall k :: 0 <= k <= n ==> WithinAfter(m, ids, k, strategy, c)) <==>
            (forall k :: 0 <= k < n ==> !OverfillsAt(m, ids, k, strategy, c))
  {
    hide *;
    if n == 0 {
      WithinAtFirst(m, ids, strategy, c);
    } else {
      RunKeepsSkewExactly(m, ids, n - 1, strategy, c);
      if WithinAfter(m, ids, n - 1, strategy, c) {
        NextKeepsSkew(m, ids, n - 1, strategy, c);
      }
    }
  }

  lemma UniqueNeverOverfills(m: Cluster, ids: seq<PodId>, k: nat, strategy: Strategy, c: SpreadConstraint)
    requires Inv(m) && Hard(c) && UniquePerNode(m, c.topologyKey) && k < |ids|
    ensures !OverfillsAt(m, ids, k, strategy, c)
  {
    var before := BindRun(m, ids[..k], strategy);
    PlacementKeepsShape(m, before, c);
    InvNodes(before);
    hide Inv, UniquePerNode, Overfills, Consistent;
    if ScheduleOne(before, ids[k], strategy).BoundTo? {
      NeverOverfills(before, ids[k], ScheduleOne(before, ids[k], strategy).node, c);
    }
  }

  /** So for a key unique per node the counts never drift further apart than the limit. */
  lemma RunKeepsSkew(m: Cluster, ids: seq<PodId>, strategy: Strategy, c: SpreadConstraint)
    requires Inv(m) && Hard(c) && UniquePerNode(m, c.topologyKey) && CarriedByMatching(m, c) && WithinSkew(m, c)
    ensures WithinSkew(BindRun(m, ids, strategy), c)
  {
    hide WithinSkew, CarriedByMatching, Inv, OverfillsAt, UniquePerNode, Hard;
    forall k: nat | k < |ids|
      ensures !OverfillsAt(m, ids, k, strategy, c)
    {
      UniqueNeverOverfills(m, ids, k, strategy, c);
    }
    RunKeepsSkewExactly(m, ids, |ids|, strategy, c);
    assert WithinAfter(m, ids, |ids|, strategy, c);
    assert ids[..|ids|] == ids;
  }

  // ----- A zone that is overfilled -----

  function ZoneNode(zone: string, pods: seq<PodId>, cordoned: bool): Node {
    Node("t", NO_RESOURCES, NO_RESOURCES, pods, true, [("zone", zone)], [], false, cordoned, 0, "", false)
  }

  const ONE_PER_ZONE := SpreadConstraint(1, "zone", DoNotSchedule, [])

  function SpreadPod(phase: Phase, node: Option<NodeId>): Pod {
    Pod(NO_RESOURCES, phase, node, Constraints([], [], [], [ONE_PER_ZONE]), None, 0, 0, [], false, false, None)
  }

  /** Zone a has a node with a pod and an empty one; the only node of zone b is
      empty and cordoned; a second pod waits. */
  function TwoZones(): Cluster {
    ClusterOf(
      [ZoneNode("a", [Handle(0, 0)], false), ZoneNode("a", [], false), ZoneNode("b", [], true)],
      [SpreadPod(Running, Some(Handle(0, 0))), SpreadPod(Pending, None)], [], [Handle(1, 0)])
  }

  lemma TwoZonesInv()
    ensures Inv(TwoZones())
  {
    var nodes := [ZoneNode("a", [Handle(0, 0)], false), ZoneNode("a", [], false), ZoneNode("b", [], true)];
    var pods := [SpreadPod(Running, Some(Handle(0, 0))), SpreadPod(Pending, None)];
    assert NodeLists(nodes[0], pods, 0) && NodeLists(nodes[1], pods, 1) && NodeLists(nodes[2], pods, 2);
    ClusterOfInv(nodes, pods, [], [Handle(1, 0)]);
  }

  lemma TwoZonesFacts()
    ensures var m := TwoZones();
            && (forall n :: m.HasNode(n) <==> n == Handle(0, 0) || n == Handle(1, 0) || n == Handle(2, 0))
            && m.Node(Handle(0, 0)) == ZoneNode("a", [Handle(0, 0)], false)
            && m.Node(Handle(1, 0)) == ZoneNode("a", [], false)
            && m.Node(Handle(2, 0)) == ZoneNode("b", [], true)
            && (forall p :: m.HasPod(p) <==> p == Handle(0, 0) || p == Handle(1, 0))
            && m.Pod(Handle(0, 0)) == SpreadPod(Running, Some(Handle(0, 0)))
            && m.Pod(Handle(1, 0)) == SpreadPod(Pending, None)
  {
  }

  lemma ZoneOf(zone: string)
    ensures forall pods, cordoned :: Lookup(ZoneNode(zone, pods, cordoned).labels, "zone") == Some(zone)
  {
  }

  lemma TwoZonesCounts()
    ensures Domains(TwoZones(), "zone") == {"a", "b"}
    ensures CountOf(TwoZones(), ONE_PER_ZONE, "a") == 1 && CountOf(TwoZones(), ONE_PER_ZONE, "b") == 0
  {
    hide TwoZones;
    TwoZonesFacts();
    var m := TwoZones();
    assert "a"[0] != "b"[0];
    ZoneOf("a");
    ZoneOf("b");
    hide Lookup;
    NodeDomain(m, Handle(0, 0), "zone");
    NodeDomain(m, Handle(2, 0), "zone");
    forall d
      ensures d in Domains(m, "zone") <==> d == "a" || d == "b"
    {
      if d in Domains(m, "zone") {
        var n :| n in m.nodes.live && Lookup(m.Node(n).labels, "zone") == Some(d);
        assert m.HasNode(n);
      }
    }
    forall p
      ensures p in MatchingPods(m, "zone", "a", []) <==> p == Handle(0, 0)
      ensures p !in MatchingPods(m, "zone", "b", [])
    {
      assert p in m.pods.live <==> m.HasPod(p);
    }
    assert MatchingPods(m, "zone", "a", []) == {Handle(0, 0)};
    assert MatchingPods(m, "zone", "b", []) == {};
  }

  lemma TwoZonesWithin()
    ensures Hard(ONE_PER_ZONE) && WithinSkew(TwoZones(), ONE_PER_ZONE) && TooFull(TwoZones(), ONE_PER_ZONE, "a")
  {
    hide TwoZones, CountOf, Domains;
    TwoZonesCounts();
    MinimumIsACount(TwoZones(), ONE_PER_ZONE, "b");
  }

  lemma TwoZonesAccepts()
    ensures !SpreadAllows(TwoZones(), ZoneNode("a", [Handle(0, 0)], false), ONE_PER_ZONE)
    ensures SpreadAllows(TwoZones(), ZoneNode("a", [], false), ONE_PER_ZONE)
  {
    hide TwoZones, DomainCounts, MinCount, UncachedSkew, CountOf, Domains;
    TwoZonesWithin();
    TwoZonesCounts();
    CountsBound(TwoZones(), ONE_PER_ZONE, "a");
  }

  /** Only the empty node of zone a is feasible for the waiting pod. */
  lemma TwoZonesFeasible()
    ensures forall n :: IsFeasible(TwoZones(), SpreadPod(Pending, None), n) <==> n == Handle(1, 0)
  {
    hide TwoZones, SpreadAllows;
    TwoZonesFacts();
    TwoZonesAccepts();
    var m, pod := TwoZones(), SpreadPod(Pending, None);
    assert pod.constraints.topologySpread == [ONE_PER_ZONE] && ONE_PER_ZONE in pod.constraints.topologySpread;
    assert PassesFilters(m, pod, m.Node(Handle(1, 0)));
  }

  lemma TwoZonesSchedule(strategy: Strategy)
    ensures Consistent(TwoZones().nodes)
    ensures ScheduleOne(TwoZones(), Handle(1, 0), strategy) == BoundTo(Handle(1, 0))
  {
    hide TwoZones, IsFeasible, Inv, Consistent;
    var m := TwoZones();
    TwoZonesInv();
    InvNodes(m);
    TwoZonesFacts();
    TwoZonesFeasible();
    assert IsFeasible(m, m.Pod(Handle(1, 0)), Handle(1, 0));
    BoundIsFeasible(m, m.Pod(Handle(1, 0)), strategy);
  }

  lemma TwoZonesCarry()
    ensures CarriedByMatching(TwoZones(), ONE_PER_ZONE) && TwoZones().HasPod(Handle(1, 0))
    ensures Overfills(TwoZones(), Handle(1, 0), Handle(1, 0), ONE_PER_ZONE)
  {
    hide TwoZones, TooFull;
    TwoZonesFacts();
    TwoZonesWithin();
    assert InDomain(TwoZones(), Handle(1, 0), "zone", "a");
  }

  /** With shared domains the limit can be exceeded: a scheduler with any
      strategy puts the waiting pod on the empty node of the full zone. */
  lemma SharedDomainOverfills(strategy: Strategy)
    ensures var m, c := TwoZones(), ONE_PER_ZONE;
            && Inv(m) && Hard(c) && CarriedByMatching(m, c) && WithinSkew(m, c)
            && ScheduleOne(m, Handle(1, 0), strategy) == BoundTo(Handle(1, 0))
            && !WithinSkew(BindRun(m, [Handle(1, 0)], strategy), c)
  {
    hide *;
    var m, c, p := TwoZones(), ONE_PER_ZONE, Handle(1, 0);
    TwoZonesInv();
    TwoZonesWithin();
    TwoZonesCarry();
    TwoZonesSchedule(strategy);
    OneBindOverfills(m, p, p, strategy, c);
  }

  lemma OneBindOverfills(m: Cluster, p: PodId, n: NodeId, strategy: Strategy, c: SpreadConstraint)
    requires Inv(m) && Hard(c) && CarriedByMatching(m, c) && WithinSkew(m, c) && Overfills(m, p, n, c)
    requires Consistent(m.nodes) && ScheduleOne(m, p, strategy) == BoundTo(n)
    ensures !WithinSkew(BindRun(m, [p], strategy), c)
  {
    hide Inv, Consistent, Overfills, WithinSkew, Hard, CarriedByMatching, ScheduleOne;
    assert [p][..0] == [] && [p][..1] == [p];
    WithinAtFirst(m, [p], strategy, c);
    NextKeepsSkew(m, [p], 0, strategy, c);
  }
}
