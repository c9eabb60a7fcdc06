/** Packing pods into flexible node claims, with two indices that survive swaps. */
module ClaimPacking {
  import opened Types
  import opened Sequences
  import opened Arenas
  import opened ClusterModel
  import opened ClusterStates
  import opened NodePools
  import opened InstanceTypes
  import opened UniformBatches

  type Pair = (string, string)

  /** Pods that will share a node, their summed requests and their number per owner. */
  datatype FlexClaim = FlexClaim(pods: seq<PodId>, cpu: nat, mem: nat, gpu: nat, perOwner: map<OwnerId, nat>) {
    function Of(o: OwnerId): nat {
      if o in perOwner then perOwner[o] else 0
    }

    function ToBin(): Bin { Bin(pods, cpu, mem, gpu) }
  }

  /** The claims, where each owner still has room, and which claims hold a label. */
  datatype Packing = Packing(claims: seq<FlexClaim>, available: map<OwnerId, seq<nat>>, byLabel: map<Pair, set<nat>>) {
    function RoomFor(o: OwnerId): seq<nat> {
      if o in available then available[o] else []
    }

    function Holding(pair: Pair): set<nat> {
      if pair in byLabel then byLabel[pair] else {}
    }
  }

  // ----- Constraints between a pod and a claim -----

  predicate HasHostSpread(pod: Pod) {
    exists c | c in pod.constraints.topologySpread :: IsHostSpread(c)
  }

  predicate HasHostAnti(pod: Pod) {
    exists t | t in pod.constraints.podAffinity :: IsHostAnti(t)
  }

  /** The pod refuses to share a host with the other one. */
  predicate Repels(pod: Pod, other: Pod) {
    exists t | t in pod.constraints.podAffinity :: IsHostAnti(t) && Matches(other.labels, t.selector)
  }

  predicate Conflicts(m: Cluster, pod: Pod, ids: seq<PodId>) {
    exists q | q in ids :: m.HasPod(q) && (Repels(pod, m.Pod(q)) || Repels(m.Pod(q), pod))
  }

  predicate ViolatesSpread(pod: Pod, claim: FlexClaim) {
    exists c | c in pod.constraints.topologySpread :: IsHostSpread(c) && claim.Of(pod.owner) + 1 > c.maxSkew
  }

  predicate Admits(m: Cluster, types: seq<InstanceType>, claim: FlexClaim, pod: Pod) {
    var r := pod.requests;
    && !Conflicts(m, pod, claim.pods)
    && !ViolatesSpread(pod, claim)
    && SomeHolds(types, claim.cpu + r.cpu, claim.mem + r.mem, claim.gpu + r.gpu)
  }

  // ----- Narrowing by the indices -----

  /** Labels whose holders a pod with anti-affinity stays away from. */
  predicate Avoids(pod: Pod, pair: Pair) {
    pair in pod.labels || exists t | t in pod.constraints.podAffinity :: IsHostAnti(t) && pair in t.selector
  }

  function Excluded(pk: Packing, pod: Pod): set<nat> {
    set pair, c | pair in pk.byLabel && c in pk.byLabel[pair] && Avoids(pod, pair) :: c
  }

  function UpTo(n: nat, excluded: set<nat>): seq<nat> {
    if n == 0 then [] else UpTo(n - 1, excluded) + (if n - 1 in excluded then [] else [n - 1])
  }

  function Candidates(pk: Packing, pod: Pod): seq<nat> {
    if HasHostSpread(pod) then pk.RoomFor(pod.owner)
    else UpTo(|pk.claims|, if HasHostAnti(pod) then Excluded(pk, pod) else {})
  }

  /** With constraints, the search gives up after three misses in a row. */
  function Tried(pk: Packing, pod: Pod): seq<nat> {
    var all := Candidates(pk, pod);
    if (HasHostSpread(pod) || HasHostAnti(pod)) && |all| > 3 then all[..3] else all
  }

  function FirstAdmitting(
    m: Cluster, types: seq<InstanceType>, pk: Packing, pod: Pod, tried: seq<nat>): (choice: Option<nat>)
    ensures choice.Some? ==>
              && choice.value in tried && choice.value < |pk.claims|
              && Admits(m, types, pk.claims[choice.value], pod)
  {
    if tried == [] then None
    else
      var choice, c := FirstAdmitting(m, types, pk, pod, tried[..|tried| - 1]), tried[|tried| - 1];
      if choice.None? && c < |pk.claims| && Admits(m, types, pk.claims[c], pod) then Some(c) else choice
  }

  function Choose(m: Cluster, types: seq<InstanceType>, pk: Packing, pod: Pod): Option<nat> {
    FirstAdmitting(m, types, pk, pod, Tried(pk, pod))
  }

  // ----- The three updates -----

  function AddPod(claim: FlexClaim, p: PodId, pod: Pod): FlexClaim {
    var r := pod.requests;
    FlexClaim(claim.pods + [p], claim.cpu + r.cpu, claim.mem + r.mem, claim.gpu + r.gpu,
              claim.perOwner[pod.owner := claim.Of(pod.owner) + 1])
  }

  function Labelled(byLabel: map<Pair, set<nat>>, labels: Labels, c: nat): map<Pair, set<nat>> {
    if labels == [] then byLabel
    else
      var rest, pair := Labelled(byLabel, labels[..|labels| - 1], c), labels[|labels| - 1];
      rest[pair := (if pair in rest then rest[pair] else {}) + {c}]
  }

  function SkewOf(pod: Pod): nat {
    MinSkew(pod.constraints.topologySpread, U32_MAX)
  }

  /** Put the pod on an existing claim. */
  function AddTo(pk: Packing, p: PodId, pod: Pod, c: nat): Packing
    requires c < |pk.claims|
  {
    var claim, o := AddPod(pk.claims[c], p, pod), pod.owner;
    Packing(pk.claims[c := claim],
            if claim.Of(o) >= SkewOf(pod) && o in pk.available
            then pk.available[o := Without(pk.available[o], c)] else pk.available,
            Labelled(pk.byLabel, pod.labels, c))
  }

  /** Open a claim for the pod. */
  function Open(pk: Packing, p: PodId, pod: Pod): Packing {
    var c, o := |pk.claims|, pod.owner;
    var room: seq<nat> := pk.RoomFor(o) + [c];
    Packing(pk.claims + [AddPod(FlexClaim([], 0, 0, 0, map[]), p, pod)],
            pk.available[o := if 1 >= SkewOf(pod) then Without<nat>(room, c) else room],
            Labelled(pk.byLabel, pod.labels, c))
  }

  function SwapIndex(i: nat, c: nat): nat {
    if i == 0 then c else if i == c then 0 else i
  }

  function SwapList(s: seq<nat>, c: nat): seq<nat> {
    seq(|s|, i requires 0 <= i < |s| => SwapIndex(s[i], c))
  }

  function SwapSet(s: set<nat>, c: nat): set<nat> {
    set i | i in s :: SwapIndex(i, c)
  }

  /** Swap the claim with the first one, and the indices in both maps. */
  function SwapFront(pk: Packing, c: nat): Packing
    requires c < |pk.claims|
  {
    if c == 0 then pk
    else
      Packing(pk.claims[0 := pk.claims[c]][c := pk.claims[0]],
              map o | o in pk.available :: SwapList(pk.available[o], c),
              map pair | pair in pk.byLabel :: SwapSet(pk.byLabel[pair], c))
  }

  // ----- Packing a list of pods -----

  datatype PackState = PackState(packing: Packing, usage: NodePoolUsage, stopped: bool)

  function PackOne(m: Cluster, types: seq<InstanceType>, pool: NodePool, s: PackState, p: PodId): PackState {
    if s.stopped || !m.HasPod(p) then s
    else
      var pod := m.Pod(p);
      var choice := Choose(m, types, s.packing, pod);
      if choice.Some? then s.(packing := SwapFront(AddTo(s.packing, p, pod, choice.value), choice.value))
      else if !CanLaunch(pool, s.usage, 0, 0) then s.(stopped := true)
      else s.(packing := Open(s.packing, p, pod), usage := s.usage.(nodeCount := s.usage.nodeCount + 1))
  }

  function PackAll(
    m: Cluster, types: seq<InstanceType>, pool: NodePool, usage: NodePoolUsage, ids: seq<PodId>): PackState
  {
    if ids == [] then PackState(Packing([], map[], map[]), usage, false)
    else PackOne(m, types, pool, PackAll(m, types, pool, usage, ids[..|ids| - 1]), ids[|ids| - 1])
  }

  // ----- What the indices mean -----

  predicate HoldsLabel(m: Cluster, claim: FlexClaim, pair: Pair) {
    exists p | p in claim.pods :: m.HasPod(p) && pair in m.Pod(p).labels
  }

  /** The label index lists exactly the claims that hold a pod with the label. */
  ghost predicate LabelsAgree(m: Cluster, pk: Packing) {
    forall pair: Pair, c: nat :: c in pk.Holding(pair) <==> c < |pk.claims| && HoldsLabel(m, pk.claims[c], pair)
  }

  ghost predicate InRange(pk: Packing) {
    forall o, c :: c in pk.RoomFor(o) ==> c < |pk.claims|
  }

  /** The owner index lists, once each, exactly the claims that hold some of the
      owner's pods but fewer than `skew`; none holds more than `skew`, or one. */
  ghost predicate RoomAgrees(pk: Packing, o: OwnerId, skew: nat) {
    && NoDuplicates(pk.RoomFor(o))
    && (forall c: nat :: c in pk.RoomFor(o) <==> c < |pk.claims| && 0 < pk.claims[c].Of(o) < skew)
    && (forall c :: 0 <= c < |pk.claims| ==> pk.claims[c].Of(o) <= Max(skew, 1))
  }

  lemma {:induction false} LabelledFacts(byLabel: map<Pair, set<nat>>, labels: Labels, c: nat, pair: Pair)
    ensures var after := Labelled(byLabel, labels, c);
            && (pair in after <==> pair in byLabel || pair in labels)
            && (pair in after ==>
                  after[pair] == (if pair in byLabel then byLabel[pair] else {}) + (if pair in labels then {c} else {}))
  {
    if labels != [] {
      LabelledFacts(byLabel, labels[..|labels| - 1], c, pair);
      assert labels == labels[..|labels| - 1] + [labels[|labels| - 1]];
    }
  }

  lemma AddToLabels(m: Cluster, pk: Packing, p: PodId, c: nat)
    requires LabelsAgree(m, pk) && m.HasPod(p) && c < |pk.claims|
    ensures LabelsAgree(m, AddTo(pk, p, m.Pod(p), c))
  {
    var pk' := AddTo(pk, p, m.Pod(p), c);
    forall pair: Pair, d: nat
      ensures d in pk'.Holding(pair) <==> d < |pk'.claims| && HoldsLabel(m, pk'.claims[d], pair)
    {
      LabelledFacts(pk.byLabel, m.Pod(p).labels, c, pair);
      assert d in pk.Holding(pair) <==> d < |pk.claims| && HoldsLabel(m, pk.claims[d], pair);
      assert pk'.claims[c].pods == pk.claims[c].pods + [p];
    }
  }

  lemma OpenLabels(m: Cluster, pk: Packing, p: PodId)
    requires LabelsAgree(m, pk) && m.HasPod(p)
    ensures LabelsAgree(m, Open(pk, p, m.Pod(p)))
  {
    var pk' := Open(pk, p, m.Pod(p));
    forall pair: Pair, d: nat
      ensures d in pk'.Holding(pair) <==> d < |pk'.claims| && HoldsLabel(m, pk'.claims[d], pair)
    {
      LabelledFacts(pk.byLabel, m.Pod(p).labels, |pk.claims|, pair);
      assert d in pk.Holding(pair) <==> d < |pk.claims| && HoldsLabel(m, pk.claims[d], pair);
      assert pk'.claims[|pk.claims|].pods == [p];
    }
  }

  lemma SwapMembers(s: set<nat>, c: nat, i: nat)
    ensures i in SwapSet(s, c) <==> SwapIndex(i, c) in s
  {
    assert SwapIndex(SwapIndex(i, c), c) == i;
  }

  lemma SwapFrontLabels(m: Cluster, pk: Packing, c: nat)
    requires LabelsAgree(m, pk) && c < |pk.claims|
    ensures LabelsAgree(m, SwapFront(pk, c))
  {
    var pk' := SwapFront(pk, c);
    hide HoldsLabel;
    if c != 0 {
      forall pair: Pair, d: nat
        ensures d in pk'.Holding(pair) <==> d < |pk'.claims| && HoldsLabel(m, pk'.claims[d], pair)
      {
        SwapMembers(pk.Holding(pair), c, d);
        var e := SwapIndex(d, c);
        assert e in pk.Holding(pair) <==> e < |pk.claims| && HoldsLabel(m, pk.claims[e], pair);
      }
    }
  }

  lemma SwapListMembers(s: seq<nat>, c: nat, i: nat)
    ensures i in SwapList(s, c) <==> SwapIndex(i, c) in s
    ensures NoDuplicates(s) ==> NoDuplicates(SwapList(s, c))
  {
    if SwapIndex(i, c) in s {
      var k :| 0 <= k < |s| && s[k] == SwapIndex(i, c);
      assert SwapList(s, c)[k] == i;
    }
    if i in SwapList(s, c) {
      var k :| 0 <= k < |s| && SwapList(s, c)[k] == i;
      assert s[k] == SwapIndex(i, c);
    }
    if NoDuplicates(s) {
      forall a, b | 0 <= a < b < |s|
        ensures SwapList(s, c)[a] != SwapList(s, c)[b]
      {
        assert s[a] != s[b];
      }
    }
  }

  lemma SwapFrontRoom(pk: Packing, c: nat, o: OwnerId, skew: nat)
    requires RoomAgrees(pk, o, skew) && c < |pk.claims|
    ensures RoomAgrees(SwapFront(pk, c), o, skew)
  {
    var pk' := SwapFront(pk, c);
    if c != 0 {
      SwapListMembers(pk.RoomFor(o), c, 0);
      forall d: nat
        ensures d in pk'.RoomFor(o) <==> d < |pk'.claims| && 0 < pk'.claims[d].Of(o) < skew
      {
        SwapListMembers(pk.RoomFor(o), c, d);
        var e := SwapIndex(d, c);
        assert e in pk.RoomFor(o) <==> e < |pk.claims| && 0 < pk.claims[e].Of(o) < skew;
      }
    }
  }

  lemma AddToRange(pk: Packing, p: PodId, pod: Pod, c: nat)
    requires InRange(pk) && c < |pk.claims|
    ensures InRange(AddTo(pk, p, pod, c))
  {
    WithoutMembers(pk.RoomFor(pod.owner), c);
    var pk' := AddTo(pk, p, pod, c);
    forall o, d | d in pk'.RoomFor(o)
      ensures d < |pk'.claims|
    {
      assert d in pk.RoomFor(o);
    }
  }

  lemma OpenRange(pk: Packing, p: PodId, pod: Pod)
    requires InRange(pk)
    ensures InRange(Open(pk, p, pod))
  {
    var room: seq<nat> := pk.RoomFor(pod.owner) + [|pk.claims|];
    WithoutMembers<nat>(room, |pk.claims|);
    var pk' := Open(pk, p, pod);
    forall o, d | d in pk'.RoomFor(o)
      ensures d < |pk'.claims|
    {
      assert d in pk.RoomFor(o) || (o == pod.owner && d in room);
    }
  }

  lemma SwapFrontRange(pk: Packing, c: nat)
    requires InRange(pk) && c < |pk.claims|
    ensures InRange(SwapFront(pk, c))
  {
    var pk' := SwapFront(pk, c);
    forall o, d | d in pk'.RoomFor(o)
      ensures d < |pk'.claims|
    {
      SwapListMembers(pk.RoomFor(o), c, d);
      assert c != 0 ==> SwapIndex(d, c) in pk.RoomFor(o);
    }
  }

  /** All pods of the owner in the list carry the hostname spread with this least skew. */
  ghost predicate UniformSpread(m: Cluster, ids: seq<PodId>, o: OwnerId, skew: nat) {
    forall p :: p in ids && m.HasPod(p) && m.Pod(p).owner == o ==> HasHostSpread(m.Pod(p)) && SkewOf(m.Pod(p)) == skew
  }

  /** Another owner's pod leaves this owner's room alone. */
  lemma OtherOwnersRoom(pk: Packing, p: PodId, pod: Pod, c: nat, o: OwnerId, skew: nat)
    requires RoomAgrees(pk, o, skew) && pod.owner != o
    ensures c < |pk.claims| ==> RoomAgrees(AddTo(pk, p, pod, c), o, skew)
    ensures RoomAgrees(Open(pk, p, pod), o, skew)
  {
    hide Labelled, SkewOf, Without;
  }

  /** A pod of this owner on a claim with room: the claim leaves the list when it is full. */
  lemma OwnRoom(pk: Packing, p: PodId, pod: Pod, c: nat)
    requires RoomAgrees(pk, pod.owner, SkewOf(pod)) && c in pk.RoomFor(pod.owner)
    ensures c < |pk.claims| && RoomAgrees(AddTo(pk, p, pod, c), pod.owner, SkewOf(pod))
  {
    hide Labelled, SkewOf, Without;
    var o := pod.owner;
    WithoutMembers(pk.RoomFor(o), c);
    WithoutNoDuplicates(pk.RoomFor(o), c);
    var pk' := AddTo(pk, p, pod, c);
    assert pk'.claims[c].Of(o) == pk.claims[c].Of(o) + 1;
  }

  /** A new claim holds one pod of the owner: it has room exactly when more may follow. */
  lemma NewClaimRoom(pk: Packing, pk': Packing, o: OwnerId, skew: nat)
    requires RoomAgrees(pk, o, skew)
    requires |pk'.claims| == |pk.claims| + 1 && pk'.claims[..|pk.claims|] == pk.claims &&
             pk'.claims[|pk.claims|].Of(o) == 1
    requires pk'.RoomFor(o) == if 1 >= skew then pk.RoomFor(o) else pk.RoomFor(o) + [|pk.claims|]
    ensures RoomAgrees(pk', o, skew)
  {
    var c := |pk.claims|;
    assert c !in pk.RoomFor(o);
    NoDuplicatesConcat(pk.RoomFor(o), [c]);
    assert forall d :: 0 <= d < c ==> pk'.claims[d] == pk.claims[d];
  }

  lemma WithoutNew(s: seq<nat>, c: nat)
    requires c !in s
    ensures Without<nat>(s + [c], c) == s
  {
    assert (s + [c])[..|s|] == s;
    WithoutAbsent<nat>(s, c);
  }

  lemma OpenRoom(pk: Packing, p: PodId, pod: Pod)
    requires |pk.claims| !in pk.RoomFor(pod.owner)
    ensures var pk' := Open(pk, p, pod);
            && |pk'.claims| == |pk.claims| + 1 && pk'.claims[..|pk.claims|] == pk.claims &&
               pk'.claims[|pk.claims|].Of(pod.owner) == 1
            && pk'.RoomFor(pod.owner) ==
               if 1 >= SkewOf(pod) then pk.RoomFor(pod.owner) else pk.RoomFor(pod.owner) + [|pk.claims|]
  {
    hide SkewOf, Labelled, Without;
    WithoutNew(pk.RoomFor(pod.owner), |pk.claims|);
  }

  lemma RoomInRange(pk: Packing, o: OwnerId, skew: nat)
    requires RoomAgrees(pk, o, skew)
    ensures |pk.claims| !in pk.RoomFor(o)
  {
  }

  /** The owner index stays right over every packing of pods whose owner spreads uniformly. */
  lemma {:induction false} PackKeepsRoom(
    m: Cluster, types: seq<InstanceType>, pool: NodePool, usage: NodePoolUsage, ids: seq<PodId>, o: OwnerId, skew: nat)
    requires UniformSpread(m, ids, o, skew)
    ensures RoomAgrees(PackAll(m, types, pool, usage, ids).packing, o, skew)
  {
    hide RoomAgrees, AddTo, Open, SwapFront, HasHostSpread, SkewOf;
    if ids == [] {
      EmptyRoom(o, skew);
    } else {
      var front, p := ids[..|ids| - 1], ids[|ids| - 1];
      assert ids == front + [p];
      PackKeepsRoom(m, types, pool, usage, front, o, skew);
      var s := PackAll(m, types, pool, usage, front);
      if !s.stopped && m.HasPod(p) {
        var pod := m.Pod(p);
        var choice := Choose(m, types, s.packing, pod);
        assert p in ids;
        hide Choose;
        if pod.owner != o {
          OtherOwnersRoom(s.packing, p, pod, if choice.Some? then choice.value else 0, o, skew);
        } else if choice.Some? {
          ChosenHasRoom(m, types, s.packing, pod);
          OwnRoom(s.packing, p, pod, choice.value);
        } else {
          RoomInRange(s.packing, o, skew);
          OpenRoom(s.packing, p, pod);
          NewClaimRoom(s.packing, Open(s.packing, p, pod), o, skew);
        }
        if choice.Some? {
          ChosenInRange(m, types, s.packing, pod);
          SwapFrontRoom(AddTo(s.packing, p, pod, choice.value), choice.value, o, skew);
        }
      }
    }
  }

  lemma EmptyRoom(o: OwnerId, skew: nat)
    ensures RoomAgrees(Packing([], map[], map[]), o, skew)
  {
  }

  lemma ChosenInRange(m: Cluster, types: seq<InstanceType>, pk: Packing, pod: Pod)
    requires Choose(m, types, pk, pod).Some?
    ensures var c := Choose(m, types, pk, pod).value;
            c < |pk.claims| && Admits(m, types, pk.claims[c], pod) && c in Candidates(pk, pod)
    ensures forall p :: |AddTo(pk, p, pod, Choose(m, types, pk, pod).value).claims| == |pk.claims|
  {
    hide Admits, Candidates;
    assert forall c :: c in Tried(pk, pod) ==> c in Candidates(pk, pod);
  }

  lemma ChosenHasRoom(m: Cluster, types: seq<InstanceType>, pk: Packing, pod: Pod)
    requires Choose(m, types, pk, pod).Some? && HasHostSpread(pod)
    ensures Choose(m, types, pk, pod).value in pk.RoomFor(pod.owner)
  {
    ChosenInRange(m, types, pk, pod);
  }

  /** The label index stays right, and both indices stay in range, over every packing. */
  lemma {:induction false} PackKeepsIndices(
    m: Cluster, types: seq<InstanceType>, pool: NodePool, usage: NodePoolUsage, ids: seq<PodId>)
    ensures var pk := PackAll(m, types, pool, usage, ids).packing; LabelsAgree(m, pk) && InRange(pk)
  {
    hide LabelsAgree, InRange, AddTo, Open, SwapFront;
    if ids == [] {
      EmptyIndices(m);
    } else {
      var front, p := ids[..|ids| - 1], ids[|ids| - 1];
      PackKeepsIndices(m, types, pool, usage, front);
      var s := PackAll(m, types, pool, usage, front);
      if !s.stopped && m.HasPod(p) {
        var pod := m.Pod(p);
        var choice := Choose(m, types, s.packing, pod);
        if choice.Some? {
          var c := choice.value;
          ChosenInRange(m, types, s.packing, pod);
          AddToLabels(m, s.packing, p, c);
          AddToRange(s.packing, p, pod, c);
          SwapFrontLabels(m, AddTo(s.packing, p, pod, c), c);
          SwapFrontRange(AddTo(s.packing, p, pod, c), c);
        } else {
          OpenLabels(m, s.packing, p);
          OpenRange(s.packing, p, pod);
        }
      }
    }
  }

  /** A claim is excluded exactly when it holds a pod with a label that the pod avoids. */
  lemma ExcludedExactly(m: Cluster, pk: Packing, pod: Pod, c: nat)
    requires LabelsAgree(m, pk) && c < |pk.claims|
    ensures c in Excluded(pk, pod) <==> exists pair :: Avoids(pod, pair) && HoldsLabel(m, pk.claims[c], pair)
  {
    hide Avoids, HoldsLabel;
    if c in Excluded(pk, pod) {
      var pair :| pair in pk.byLabel && c in pk.byLabel[pair] && Avoids(pod, pair);
      assert c in pk.Holding(pair);
    }
    if pair :| Avoids(pod, pair) && HoldsLabel(m, pk.claims[c], pair) {
      assert c in pk.Holding(pair);
    }
  }

  lemma {:induction false} LookupMember(labels: Labels, key: string)
    ensures Lookup(labels, key).Some? ==> (key, Lookup(labels, key).value) in labels
  {
    if labels != [] && labels[0].0 != key {
      LookupMember(labels[1..], key);
    } else if labels != [] {
      assert labels[0] == (key, labels[0].1);
    }
  }

  /** The label index never offers a claim with a pod that the new pod repels by
      a selector that says anything at all. */
  lemma RepelledIsExcluded(m: Cluster, pk: Packing, pod: Pod, c: nat, q: PodId, t: PodAffinityTerm)
    requires LabelsAgree(m, pk) && c < |pk.claims| && q in pk.claims[c].pods && m.HasPod(q)
    requires t in pod.constraints.podAffinity && IsHostAnti(t) && t.selector != [] &&
             Matches(m.Pod(q).labels, t.selector)
    ensures c in Excluded(pk, pod)
  {
    var pair := t.selector[0];
    assert Lookup(m.Pod(q).labels, pair.0) == Some(pair.1);
    LookupMember(m.Pod(q).labels, pair.0);
    assert Avoids(pod, pair) && HoldsLabel(m, pk.claims[c], pair);
    ExcludedExactly(m, pk, pod, c);
  }

  lemma EmptyIndices(m: Cluster)
    ensures LabelsAgree(m, Packing([], map[], map[])) && InRange(Packing([], map[], map[]))
  {
    var pk := Packing([], map[], map[]);
    assert forall pair :: pk.Holding(pair) == {};
  }

  // ----- What every claim satisfies -----

  function OwnerCount(m: Cluster, ids: seq<PodId>, o: OwnerId): nat {
    if ids == [] then 0
    else
      var p := ids[|ids| - 1];
      OwnerCount(m, ids[..|ids| - 1], o) + (if m.HasPod(p) && m.Pod(p).owner == o then 1 else 0)
  }

  /** No pod of the list refuses to share a host with another one. */
  ghost predicate Compatible(m: Cluster, ids: seq<PodId>) {
    forall i, j :: 0 <= i < j < |ids| && m.HasPod(ids[i]) && m.HasPod(ids[j]) ==>
      !Repels(m.Pod(ids[i]), m.Pod(ids[j])) && !Repels(m.Pod(ids[j]), m.Pod(ids[i]))
  }

  /** A claim holds distinct live pods that get along, with exact totals and counts. */
  ghost predicate ClaimAgrees(m: Cluster, claim: FlexClaim) {
    && claim.pods != [] && NoDuplicates(claim.pods) && (forall p :: p in claim.pods ==> m.HasPod(p))
    && claim.ToBin() == BinOf(m, claim.pods)
    && (forall o :: claim.Of(o) == OwnerCount(m, claim.pods, o))
    && Compatible(m, claim.pods)
  }

  /** Claims are sound and share no pod; they hold listed pods only. */
  ghost predicate ClaimsAgree(m: Cluster, ids: seq<PodId>, claims: seq<FlexClaim>) {
    && (forall c :: 0 <= c < |claims| ==> ClaimAgrees(m, claims[c]))
    && (forall c, p :: 0 <= c < |claims| && p in claims[c].pods ==> p in ids)
    && (forall c, d, p :: 0 <= c < d < |claims| && p in claims[c].pods ==> p !in claims[d].pods)
  }

  ghost predicate Packed(claims: seq<FlexClaim>, p: PodId) {
    exists c :: 0 <= c < |claims| && p in claims[c].pods
  }

  lemma CompatibleMore(m: Cluster, ids: seq<PodId>, p: PodId)
    requires Compatible(m, ids) && m.HasPod(p) && !Conflicts(m, m.Pod(p), ids)
    ensures Compatible(m, ids + [p])
  {
    hide Repels;
    var all := ids + [p];
    forall i, j | 0 <= i < j < |all| && m.HasPod(all[i]) && m.HasPod(all[j])
      ensures !Repels(m.Pod(all[i]), m.Pod(all[j])) && !Repels(m.Pod(all[j]), m.Pod(all[i]))
    {
      assert all[i] in ids;
      if j < |ids| {
        assert all[j] == ids[j];
      }
    }
  }

  lemma OwnerCountMore(m: Cluster, ids: seq<PodId>, p: PodId, o: OwnerId)
    requires m.HasPod(p)
    ensures OwnerCount(m, ids + [p], o) == OwnerCount(m, ids, o) + (if m.Pod(p).owner == o then 1 else 0)
  {
    assert (ids + [p])[..|ids|] == ids;
  }

  lemma AddPodAgrees(m: Cluster, claim: FlexClaim, p: PodId)
    requires ClaimAgrees(m, claim) && m.HasPod(p) && p !in claim.pods && !Conflicts(m, m.Pod(p), claim.pods)
    ensures ClaimAgrees(m, AddPod(claim, p, m.Pod(p)))
  {
    var claim' := AddPod(claim, p, m.Pod(p));
    NoDuplicatesConcat(claim.pods, [p]);
    BinGrows(m, claim.pods, p);
    CompatibleMore(m, claim.pods, p);
    hide Conflicts, Compatible, OwnerCount, BinOf;
    forall o
      ensures claim'.Of(o) == OwnerCount(m, claim'.pods, o)
    {
      OwnerCountMore(m, claim.pods, p, o);
    }
  }

  lemma FirstPodAgrees(m: Cluster, p: PodId)
    requires m.HasPod(p)
    ensures ClaimAgrees(m, AddPod(FlexClaim([], 0, 0, 0, map[]), p, m.Pod(p)))
  {
    var claim := AddPod(FlexClaim([], 0, 0, 0, map[]), p, m.Pod(p));
    assert claim.pods == [] + [p];
    BinGrows(m, [], p);
    assert BinOf(m, []) == Bin([], 0, 0, 0);
    forall o
      ensures claim.Of(o) == OwnerCount(m, claim.pods, o)
    {
      OwnerCountMore(m, [], p, o);
    }
  }

  lemma AddToAgrees(m: Cluster, ids: seq<PodId>, pk: Packing, p: PodId, c: nat)
    requires ClaimsAgree(m, ids, pk.claims) && m.HasPod(p) && p !in ids
    requires c < |pk.claims| && !Conflicts(m, m.Pod(p), pk.claims[c].pods)
    ensures ClaimsAgree(m, ids + [p], AddTo(pk, p, m.Pod(p), c).claims)
  {
    var claims, claims' := pk.claims, AddTo(pk, p, m.Pod(p), c).claims;
    AddPodAgrees(m, claims[c], p);
    hide ClaimAgrees, Conflicts, Labelled, SkewOf;
    assert claims'[c].pods == claims[c].pods + [p];
  }

  lemma AddToPacks(pk: Packing, p: PodId, pod: Pod, c: nat)
    requires c < |pk.claims|
    ensures forall q :: Packed(AddTo(pk, p, pod, c).claims, q) <==> Packed(pk.claims, q) || q == p
  {
    hide Labelled, SkewOf;
    var claims, claims' := pk.claims, AddTo(pk, p, pod, c).claims;
    assert claims'[c].pods == claims[c].pods + [p];
    forall q
      ensures Packed(claims', q) <==> Packed(claims, q) || q == p
    {
      if Packed(claims, q) {
        var d :| 0 <= d < |claims| && q in claims[d].pods;
        assert q in claims'[d].pods;
      }
      assert p in claims'[c].pods;
    }
  }

  lemma OpenAgrees(m: Cluster, ids: seq<PodId>, pk: Packing, p: PodId)
    requires ClaimsAgree(m, ids, pk.claims) && m.HasPod(p) && p !in ids
    ensures ClaimsAgree(m, ids + [p], Open(pk, p, m.Pod(p)).claims)
  {
    hide *;
    FirstPodAgrees(m, p);
    OneMoreClaim(m, ids, pk.claims, p, AddPod(FlexClaim([], 0, 0, 0, map[]), p, m.Pod(p))) by {
      AddsOnePod(p, m.Pod(p));
    }
    OpenClaims(pk, p, m.Pod(p));
  }

  lemma AddsOnePod(p: PodId, pod: Pod)
    ensures AddPod(FlexClaim([], 0, 0, 0, map[]), p, pod).pods == [p]
  {
  }

  lemma OpenClaims(pk: Packing, p: PodId, pod: Pod)
    ensures Open(pk, p, pod).claims == pk.claims + [AddPod(FlexClaim([], 0, 0, 0, map[]), p, pod)]
  {
  }

  lemma OneMoreClaim(m: Cluster, ids: seq<PodId>, claims: seq<FlexClaim>, p: PodId, claim: FlexClaim)
    requires ClaimsAgree(m, ids, claims) && ClaimAgrees(m, claim) && claim.pods == [p] && p !in ids
    ensures ClaimsAgree(m, ids + [p], claims + [claim])
  {
    hide ClaimAgrees;
    var all := claims + [claim];
    forall c, q | 0 <= c < |all| && q in all[c].pods
      ensures q in ids + [p]
    {
      if c < |claims| {
        assert q in claims[c].pods;
      }
    }
    forall c, d, q | 0 <= c < d < |all| && q in all[c].pods
      ensures q !in all[d].pods
    {
      assert q in claims[c].pods && q in ids;
      if d < |claims| {
        assert all[d] == claims[d];
      }
    }
  }

  lemma OpenPacks(pk: Packing, p: PodId, pod: Pod)
    ensures forall q :: Packed(Open(pk, p, pod).claims, q) <==> Packed(pk.claims, q) || q == p
  {
    hide Labelled, SkewOf;
    var claims, claims' := pk.claims, Open(pk, p, pod).claims;
    assert claims'[|claims|].pods == [p];
    forall q
      ensures Packed(claims', q) <==> Packed(claims, q) || q == p
    {
      if Packed(claims, q) {
        var d :| 0 <= d < |claims| && q in claims[d].pods;
        assert q in claims'[d].pods;
      }
      assert p in claims'[|claims|].pods;
    }
  }

  lemma SwapFrontAgrees(m: Cluster, ids: seq<PodId>, pk: Packing, c: nat)
    requires ClaimsAgree(m, ids, pk.claims) && c < |pk.claims|
    ensures ClaimsAgree(m, ids, SwapFront(pk, c).claims)
    ensures forall q :: Packed(SwapFront(pk, c).claims, q) <==> Packed(pk.claims, q)
  {
    var claims, claims' := pk.claims, SwapFront(pk, c).claims;
    hide ClaimAgrees;
    assert forall d :: 0 <= d < |claims| ==> SwapIndex(d, c) < |claims| && claims'[d] == claims[SwapIndex(d, c)];
    forall q
      ensures Packed(claims', q) <==> Packed(claims, q)
    {
      if Packed(claims, q) {
        var d :| 0 <= d < |claims| && q in claims[d].pods;
        assert q in claims'[SwapIndex(d, c)].pods;
      }
      if Packed(claims', q) {
        var d :| 0 <= d < |claims| && q in claims'[d].pods;
        assert q in claims[SwapIndex(d, c)].pods;
      }
    }
  }

  /** Every packing consists of sound claims without a common pod, and unless
      the pool's limit stopped it, every live pod is in one of them. */
  lemma {:induction false} PackKeepsClaims(
    m: Cluster, types: seq<InstanceType>, pool: NodePool, usage: NodePoolUsage, ids: seq<PodId>)
    requires NoDuplicates(ids)
    ensures var s := PackAll(m, types, pool, usage, ids);
            && ClaimsAgree(m, ids, s.packing.claims)
            && (s.stopped || forall p :: p in ids && m.HasPod(p) ==> Packed(s.packing.claims, p))
  {
    hide AddTo, Open, SwapFront, Packed;
    if ids != [] {
      var front, p := ids[..|ids| - 1], ids[|ids| - 1];
      assert ids == front + [p];
      assert p !in front;
      PackKeepsClaims(m, types, pool, usage, front);
      var s := PackAll(m, types, pool, usage, front);
      hide ClaimsAgree;
      WiderList(m, front, p, s.packing.claims);
      if !s.stopped && m.HasPod(p) {
        var pod := m.Pod(p);
        var choice := Choose(m, types, s.packing, pod);
        if choice.Some? {
          ChosenInRange(m, types, s.packing, pod);
          AddToAgrees(m, front, s.packing, p, choice.value);
          AddToPacks(s.packing, p, pod, choice.value);
          SwapFrontAgrees(m, ids, AddTo(s.packing, p, pod, choice.value), choice.value);
        } else {
          OpenAgrees(m, front, s.packing, p);
          OpenPacks(s.packing, p, pod);
        }
      }
    }
  }

  lemma WiderList(m: Cluster, ids: seq<PodId>, p: PodId, claims: seq<FlexClaim>)
    requires ClaimsAgree(m, ids, claims)
    ensures ClaimsAgree(m, ids + [p], claims)
  {
    hide ClaimAgrees;
  }

  /** Every claim opened counts as a node, and a node limit that held before
      the packing holds after it. */
  lemma {:induction false} PackWithinLimit(
    m: Cluster, types: seq<InstanceType>, pool: NodePool, usage: NodePoolUsage, ids: seq<PodId>)
    ensures var s := PackAll(m, types, pool, usage, ids);
            && s.usage.nodeCount == usage.nodeCount + |s.packing.claims|
            && (pool.limits.maxNodes.Some? && usage.nodeCount <= pool.limits.maxNodes.value ==>
                  s.usage.nodeCount <= pool.limits.maxNodes.value)
  {
    hide Admits, Tried, Labelled, Without;
    if ids != [] {
      PackWithinLimit(m, types, pool, usage, ids[..|ids| - 1]);
    }
  }

  // ----- The decisions -----

  function BinsOf(claims: seq<FlexClaim>): seq<Bin> {
    seq(|claims|, c requires 0 <= c < |claims| => claims[c].ToBin())
  }

  /** What is promised of a decision made for a claim. */
  ghost predicate DecisionSound(m: Cluster, types: seq<InstanceType>, ids: seq<PodId>, d: Decision) {
    && NoDuplicates(d.pods) && (forall p :: p in d.pods ==> p in ids && m.HasPod(p))
    && Compatible(m, d.pods)
    && Buys(types, d, BinOf(m, d.pods))
    && WithinSpread(m, ids, d.pods)
  }

  /** Owners whose pods all spread over hosts have at most `skew` pods here, or one. */
  ghost predicate WithinSpread(m: Cluster, ids: seq<PodId>, pods: seq<PodId>) {
    forall o, skew: nat :: UniformSpread(m, ids, o, skew) ==> OwnerCount(m, pods, o) <= Max(skew, 1)
  }

  ghost predicate NoCommonPod(decisions: seq<Decision>) {
    forall d, e, p :: 0 <= d < e < |decisions| && p in decisions[d].pods ==> p !in decisions[e].pods
  }

  lemma {:induction false} DecideKeepsDisjoint(types: seq<InstanceType>, bins: seq<Bin>)
    requires forall b, c, p :: 0 <= b < c < |bins| && p in bins[b].pods ==> p !in bins[c].pods
    ensures NoCommonPod(Decide(types, bins))
    ensures forall d, p :: d in Decide(types, bins) && p in d.pods ==> exists b :: 0 <= b < |bins| && p in bins[b].pods
  {
    if bins != [] {
      var front, last := bins[..|bins| - 1], bins[|bins| - 1];
      assert forall b :: 0 <= b < |front| ==> front[b] == bins[b];
      DecideKeepsDisjoint(types, front);
      hide Cheapest;
      forall d, p | d in Decide(types, bins) && p in d.pods
        ensures exists b :: 0 <= b < |bins| && p in bins[b].pods
      {
        if d in Decide(types, front) {
          var b :| 0 <= b < |front| && p in front[b].pods;
          assert p in bins[b].pods;
        } else {
          assert p in bins[|bins| - 1].pods;
        }
      }
      var decided := Decide(types, front);
      forall d, p | 0 <= d < |decided| && p in decided[d].pods
        ensures p !in last.pods
      {
        assert decided[d] in decided;
        var b :| 0 <= b < |front| && p in front[b].pods;
        assert p in bins[b].pods;
      }
    }
  }

  /** Every decision of a packing is sound: its pods get along, no owner with a
      uniform hostname spread exceeds it, its type holds them all, and no pod is
      in two decisions. */
  lemma PackingIsSound(m: Cluster, types: seq<InstanceType>, pool: NodePool, usage: NodePoolUsage, ids: seq<PodId>)
    requires NoDuplicates(ids)
    ensures var decisions := Decide(types, BinsOf(PackAll(m, types, pool, usage, ids).packing.claims));
            && (forall d :: d in decisions ==> DecisionSound(m, types, ids, d))
            && NoCommonPod(decisions)
  {
    var pk := PackAll(m, types, pool, usage, ids).packing;
    var bins := BinsOf(pk.claims);
    PackKeepsClaims(m, types, pool, usage, ids);
    DecideKeepsDisjoint(types, bins);
    DecisionsFit(types, bins);
    forall c | 0 <= c < |pk.claims|
      ensures WithinSpread(m, ids, pk.claims[c].pods)
    {
      ClaimWithinSpread(m, types, pool, usage, ids, c);
    }
    hide PackAll, Decide, Compatible, NoDuplicates, Buys, WithinSpread, BinOf;
    forall d | d in Decide(types, bins)
      ensures DecisionSound(m, types, ids, d)
    {
      var bin :| bin in bins && Buys(types, d, bin);
      var c :| 0 <= c < |bins| && bins[c] == bin;
      BuysPods(types, d, bin);
      assert ClaimAgrees(m, pk.claims[c]);
    }
  }

  lemma ClaimWithinSpread(
    m: Cluster, types: seq<InstanceType>, pool: NodePool, usage: NodePoolUsage, ids: seq<PodId>, c: nat)
    requires NoDuplicates(ids) && c < |PackAll(m, types, pool, usage, ids).packing.claims|
    ensures WithinSpread(m, ids, PackAll(m, types, pool, usage, ids).packing.claims[c].pods)
  {
    var pk := PackAll(m, types, pool, usage, ids).packing;
    PackKeepsClaims(m, types, pool, usage, ids);
    hide PackAll, UniformSpread, Compatible;
    assert ClaimAgrees(m, pk.claims[c]);
    forall o, skew: nat | UniformSpread(m, ids, o, skew)
      ensures OwnerCount(m, pk.claims[c].pods, o) <= Max(skew, 1)
    {
      PackKeepsRoom(m, types, pool, usage, ids, o, skew);
      assert pk.claims[c].Of(o) <= Max(skew, 1);
    }
  }

  lemma BuysPods(types: seq<InstanceType>, d: Decision, bin: Bin)
    requires Buys(types, d, bin)
    ensures d.pods == bin.pods
  {
  }

  // ----- Which pods are served -----

  /** The claim holds one pod, or some type holds its totals. */
  ghost predicate Buyable(types: seq<InstanceType>, claim: FlexClaim) {
    |claim.pods| == 1 || SomeHolds(types, claim.cpu, claim.mem, claim.gpu)
  }

  ghost predicate AllBuyable(types: seq<InstanceType>, claims: seq<FlexClaim>) {
    forall c :: 0 <= c < |claims| ==> Buyable(types, claims[c])
  }

  lemma AddToBuyable(m: Cluster, types: seq<InstanceType>, pk: Packing, p: PodId, pod: Pod, c: nat)
    requires AllBuyable(types, pk.claims) && c < |pk.claims| && Admits(m, types, pk.claims[c], pod)
    ensures AllBuyable(types, AddTo(pk, p, pod, c).claims)
  {
    hide Labelled, SkewOf, SomeHolds;
  }

  lemma OpenBuyable(types: seq<InstanceType>, pk: Packing, p: PodId, pod: Pod)
    requires AllBuyable(types, pk.claims)
    ensures AllBuyable(types, Open(pk, p, pod).claims)
  {
    hide Labelled, SkewOf, SomeHolds;
  }

  lemma SwapFrontBuyable(types: seq<InstanceType>, pk: Packing, c: nat)
    requires AllBuyable(types, pk.claims) && c < |pk.claims|
    ensures AllBuyable(types, SwapFront(pk, c).claims)
  {
    hide Buyable;
  }

  /** A claim grows only while some type holds it. */
  lemma {:induction false} PackKeepsBuyable(
    m: Cluster, types: seq<InstanceType>, pool: NodePool, usage: NodePoolUsage, ids: seq<PodId>)
    ensures AllBuyable(types, PackAll(m, types, pool, usage, ids).packing.claims)
  {
    hide AddTo, Open, SwapFront, Buyable, Admits;
    if ids != [] {
      var front, p := ids[..|ids| - 1], ids[|ids| - 1];
      PackKeepsBuyable(m, types, pool, usage, front);
      var s := PackAll(m, types, pool, usage, front);
      hide AllBuyable;
      if !s.stopped && m.HasPod(p) {
        var pod := m.Pod(p);
        var choice := Choose(m, types, s.packing, pod);
        if choice.Some? {
          AddToBuyable(m, types, s.packing, p, pod, choice.value);
          SameClaimCount(s.packing, p, pod, choice.value);
          SwapFrontBuyable(types, AddTo(s.packing, p, pod, choice.value), choice.value);
        } else {
          OpenBuyable(types, s.packing, p, pod);
        }
      }
    }
  }

  lemma SameClaimCount(pk: Packing, p: PodId, pod: Pod, c: nat)
    requires c < |pk.claims|
    ensures |AddTo(pk, p, pod, c).claims| == |pk.claims|
  {
  }

  lemma {:induction false} TotalCovers(m: Cluster, ids: seq<PodId>, p: PodId)
    requires p in ids
    ensures var r, total := RequestOf(m.pods.live, p), TotalRequests(m.pods.live, ids);
            r.cpu <= total.cpu && r.mem <= total.mem && r.gpu <= total.gpu
  {
    hide RequestOf;
    var front, last := ids[..|ids| - 1], ids[|ids| - 1];
    if p != last {
      assert p in front by {
        assert ids == front + [last];
      }
      TotalCovers(m, front, p);
    }
  }

  lemma {:induction false} TotalOfOne(m: Cluster, p: PodId)
    ensures TotalRequests(m.pods.live, [p]) == RequestOf(m.pods.live, p)
  {
    TotalRequestsAppend(m.pods.live, [], p);
    assert [] + [p] == [p];
    NoneTotalNothing(m);
    hide TotalRequests, RequestOf;
    AddNothing(RequestOf(m.pods.live, p));
  }

  lemma NoneTotalNothing(m: Cluster)
    ensures TotalRequests(m.pods.live, []) == NO_RESOURCES
  {
  }

  lemma AddNothing(r: Resources)
    ensures NO_RESOURCES.Plus(r) == r
  {
  }

  /** A sound claim that is opened or grown as above can be bought exactly when
      each of its pods alone can. */
  lemma ClaimHeld(m: Cluster, types: seq<InstanceType>, claim: FlexClaim, p: PodId)
    requires ClaimAgrees(m, claim) && Buyable(types, claim) && p in claim.pods
    ensures m.HasPod(p)
    ensures var r := m.Pod(p).requests;
            SomeHolds(types, claim.cpu, claim.mem, claim.gpu) <==> SomeHolds(types, r.cpu, r.mem, r.gpu)
  {
    TotalCovers(m, claim.pods, p);
    if |claim.pods| == 1 {
      assert claim.pods == [p];
      TotalOfOne(m, p);
    }
    hide Compatible, NoDuplicates, TotalRequests;
    var r := m.Pod(p).requests;
    assert r.cpu <= claim.cpu && r.mem <= claim.mem && r.gpu <= claim.gpu;
    if t :| t in types && t.Holds(claim.cpu, claim.mem, claim.gpu) {
      assert t.Holds(r.cpu, r.mem, r.gpu);
    }
  }

  lemma PackedInOneBin(m: Cluster, ids: seq<PodId>, claims: seq<FlexClaim>, c: nat, p: PodId)
    requires ClaimsAgree(m, ids, claims) && c < |claims| && p in claims[c].pods
    ensures var bin := claims[c].ToBin();
            bin in BinsOf(claims) && p in bin.pods && forall b :: b in BinsOf(claims) && p in b.pods ==> b == bin
  {
    hide ClaimAgrees;
    assert BinsOf(claims)[c] == claims[c].ToBin();
    forall b | b in BinsOf(claims) && p in b.pods
      ensures b == claims[c].ToBin()
    {
      var d :| 0 <= d < |claims| && BinsOf(claims)[d] == b;
    }
  }

  lemma DecidedIsPacked(types: seq<InstanceType>, claims: seq<FlexClaim>, d: Decision, p: PodId)
    requires d in Decide(types, BinsOf(claims)) && p in d.pods
    ensures Packed(claims, p)
  {
    DecisionsFit(types, BinsOf(claims));
    hide Decide;
    var bin :| bin in BinsOf(claims) && Buys(types, d, bin);
    var c :| 0 <= c < |claims| && BinsOf(claims)[c] == bin;
    assert p in claims[c].pods;
  }

  /** A pod is bought an instance exactly when the packing reached it and some
      type holds the pod alone. */
  lemma PackedIsServed(
    m: Cluster, types: seq<InstanceType>, pool: NodePool, usage: NodePoolUsage, ids: seq<PodId>, p: PodId)
    requires NoDuplicates(ids) && m.HasPod(p)
    ensures var claims, r := PackAll(m, types, pool, usage, ids).packing.claims, m.Pod(p).requests;
            (exists d :: d in Decide(types, BinsOf(claims)) && p in d.pods) <==>
            Packed(claims, p) && SomeHolds(types, r.cpu, r.mem, r.gpu)
  {
    var claims := PackAll(m, types, pool, usage, ids).packing.claims;
    PackKeepsClaims(m, types, pool, usage, ids);
    PackKeepsBuyable(m, types, pool, usage, ids);
    hide PackAll, Decide, SomeHolds, ClaimAgrees, Buyable, NoDuplicates, BinsOf;
    if d :| d in Decide(types, BinsOf(claims)) && p in d.pods {
      DecidedIsPacked(types, claims, d, p);
    }
    if c :| 0 <= c < |claims| && p in claims[c].pods {
      assert ClaimAgrees(m, claims[c]) && Buyable(types, claims[c]);
      ClaimHeld(m, types, claims[c], p);
      PackedInOneBin(m, ids, claims, c, p);
      DecidedExactly(types, BinsOf(claims), p, claims[c].ToBin());
    }
  }

  /** So unless the pool's limit stops the packing, a listed pod is bought an
      instance exactly when some type holds the pod alone. */
  lemma PodIsServed(
    m: Cluster, types: seq<InstanceType>, pool: NodePool, usage: NodePoolUsage, ids: seq<PodId>, p: PodId)
    requires NoDuplicates(ids) && m.HasPod(p) && p in ids && !PackAll(m, types, pool, usage, ids).stopped
    ensures var claims, r := PackAll(m, types, pool, usage, ids).packing.claims, m.Pod(p).requests;
            (exists d :: d in Decide(types, BinsOf(claims)) && p in d.pods) <==> SomeHolds(types, r.cpu, r.mem, r.gpu)
  {
    hide PackAll, Decide, SomeHolds, Packed, ClaimsAgree, NoDuplicates, BinsOf;
    PackKeepsClaims(m, types, pool, usage, ids);
    PackedIsServed(m, types, pool, usage, ids, p);
  }

  // ----- The loops -----

  method CheckConflicts(state: ClusterState, pod: Pod, ids: seq<PodId>) returns (conflict: bool)
    requires state.Valid()
    ensures conflict == Conflicts(state.Model(), pod, ids)
  {
    hide Arena.Valid, Repels;
    ghost var m := state.Model();
    for i := 0 to |ids|
      invariant state.Model() == m
      invariant forall j :: 0 <= j < i ==>
                  !(m.HasPod(ids[j]) && (Repels(pod, m.Pod(ids[j])) || Repels(m.Pod(ids[j]), pod)))
    {
      var other := state.pods.Find(ids[i]);
      if other.Some? && (Repels(pod, other.value) || Repels(other.value, pod)) {
        assert ids[i] in ids;
        return true;
      }
    }
    conflict := false;
  }

  /** The largest capacity of each kind, over all types. */
  method Ceiling(types: seq<InstanceType>) returns (cpu: nat, mem: nat, gpu: nat)
    ensures forall t :: t in types ==> t.cpu <= cpu && t.mem <= mem && t.gpu <= gpu
  {
    cpu, mem, gpu := 0, 0, 0;
    for i := 0 to |types|
      invariant forall j :: 0 <= j < i ==> types[j].cpu <= cpu && types[j].mem <= mem && types[j].gpu <= gpu
    {
      cpu := if cpu < types[i].cpu then types[i].cpu else cpu;
      mem := if mem < types[i].mem then types[i].mem else mem;
      gpu := if gpu < types[i].gpu then types[i].gpu else gpu;
    }
  }

  /** The checks on one candidate; the ceiling only rejects what no type holds. */
  method CheckClaim(
    state: ClusterState, types: seq<InstanceType>, cpu: nat, mem: nat, gpu: nat, claim: FlexClaim, pod: Pod)
    returns (admitted: bool)
    requires state.Valid() && forall t :: t in types ==> t.cpu <= cpu && t.mem <= mem && t.gpu <= gpu
    ensures admitted == Admits(state.Model(), types, claim, pod)
  {
    hide Arena.Valid, Conflicts;
    var c, m, g := claim.cpu + pod.requests.cpu, claim.mem + pod.requests.mem, claim.gpu + pod.requests.gpu;
    if c > cpu || m > mem || g > gpu {
      return false;
    }
    var conflict := CheckConflicts(state, pod, claim.pods);
    if conflict || ViolatesSpread(pod, claim) {
      return false;
    }
    admitted := SomeHolds(types, c, m, g);
  }

  lemma {:induction false} UpToMembers(n: nat, excluded: set<nat>)
    ensures forall c :: c in UpTo(n, excluded) ==> c < n
  {
    if n > 0 {
      UpToMembers(n - 1, excluded);
    }
  }

  lemma CandidatesInRange(pk: Packing, pod: Pod)
    requires InRange(pk)
    ensures forall k :: 0 <= k < |Candidates(pk, pod)| ==> Candidates(pk, pod)[k] < |pk.claims|
  {
    UpToMembers(|pk.claims|, if HasHostAnti(pod) then Excluded(pk, pod) else {});
    assert forall k :: 0 <= k < |pk.RoomFor(pod.owner)| ==> pk.RoomFor(pod.owner)[k] in pk.RoomFor(pod.owner);
    var all := Candidates(pk, pod);
    assert forall k :: 0 <= k < |all| ==> all[k] in all;
  }

  lemma {:induction false} FirstSticks(
    m: Cluster, types: seq<InstanceType>, pk: Packing, pod: Pod, tried: seq<nat>, k: nat)
    requires k <= |tried| && FirstAdmitting(m, types, pk, pod, tried[..k]).Some?
    ensures FirstAdmitting(m, types, pk, pod, tried) == FirstAdmitting(m, types, pk, pod, tried[..k])
  {
    hide Admits;
    if k < |tried| {
      var front := tried[..|tried| - 1];
      assert front[..k] == tried[..k];
      FirstSticks(m, types, pk, pod, front, k);
    } else {
      assert tried[..k] == tried;
    }
  }

  /** Try the candidates in order; with constraints, give up after three misses. */
  method FindClaim(state: ClusterState, types: seq<InstanceType>, pk: Packing, pod: Pod) returns (choice: Option<nat>)
    requires state.Valid() && InRange(pk)
    ensures choice == Choose(state.Model(), types, pk, pod)
  {
    hide Arena.Valid, Admits, Candidates;
    var cpu, mem, gpu := Ceiling(types);
    var all, early := Candidates(pk, pod), HasHostSpread(pod) || HasHostAnti(pod);
    CandidatesInRange(pk, pod);
    ghost var m := state.Model();
    ghost var tried := Tried(pk, pod);
    var misses, k := 0, 0;
    while k < |all| && !(early && misses >= 3)
      invariant state.Model() == m
      invariant misses == k <= |tried|
      invariant FirstAdmitting(m, types, pk, pod, tried[..k]).None?
    {
      assert tried[..k + 1][..k] == tried[..k] && tried[k] == all[k];
      var admitted := CheckClaim(state, types, cpu, mem, gpu, pk.claims[all[k]], pod);
      if admitted {
        FirstSticks(m, types, pk, pod, tried, k + 1);
        return Some(all[k]);
      }
      misses, k := misses + 1, k + 1;
    }
    assert tried[..k] == tried;
    choice := None;
  }

  /** Note the claim under each label of the pod. */
  method NoteLabels(byLabel: map<Pair, set<nat>>, labels: Labels, c: nat) returns (noted: map<Pair, set<nat>>)
    ensures noted == Labelled(byLabel, labels, c)
  {
    noted := byLabel;
    for i := 0 to |labels|
      invariant noted == Labelled(byLabel, labels[..i], c)
    {
      assert labels[..i + 1][..i] == labels[..i];
      noted := noted[labels[i] := (if labels[i] in noted then noted[labels[i]] else {}) + {c}];
    }
    assert labels[..|labels|] == labels;
  }

  /** The indices of the two swapped claims trade places in a set. */
  method TradePlaces(s: set<nat>, c: nat) returns (traded: set<nat>)
    ensures traded == SwapSet(s, c)
  {
    var hadFirst, hadOther := 0 in s, c in s;
    traded := s - {0, c};
    if hadFirst {
      traded := traded + {c};
    }
    if hadOther {
      traded := traded + {0};
    }
    forall i: nat
      ensures i in traded <==> i in SwapSet(s, c)
    {
      SwapMembers(s, c, i);
    }
  }

  /** Move the claim to the front and fix both indices up. */
  method MoveToFront(pk: Packing, c: nat) returns (moved: Packing)
    requires c < |pk.claims|
    ensures moved == SwapFront(pk, c)
  {
    if c == 0 {
      return pk;
    }
    var claims := pk.claims[0 := pk.claims[c]][c := pk.claims[0]];
    var available := map o | o in pk.available :: SwapList(pk.available[o], c);
    var byLabel: map<Pair, set<nat>> := map[];
    var pairs := pk.byLabel.Keys;
    while pairs != {}
      invariant pairs <= pk.byLabel.Keys && byLabel.Keys == pk.byLabel.Keys - pairs
      invariant forall pair :: pair in byLabel ==> byLabel[pair] == SwapSet(pk.byLabel[pair], c)
    {
      var pair :| pair in pairs;
      var traded := TradePlaces(pk.byLabel[pair], c);
      byLabel, pairs := byLabel[pair := traded], pairs - {pair};
    }
    moved := Packing(claims, available, byLabel);
  }

  /** Pack the pods in order; stop when the pool allows no further node. */
  method PackPods(state: ClusterState, types: seq<InstanceType>, pool: NodePool, usage: NodePoolUsage, ids: seq<PodId>)
    returns (pk: Packing, used: NodePoolUsage, ghost stopped: bool)
    requires state.Valid()
    ensures PackAll(state.Model(), types, pool, usage, ids) == PackState(pk, used, stopped)
  {
    hide Arena.Valid, Choose, AddTo, Open, SwapFront, CanLaunch, InRange, LabelsAgree;
    ghost var m := state.Model();
    pk, used, stopped := Packing([], map[], map[]), usage, false;
    for i := 0 to |ids|
      invariant state.Model() == m && !stopped
      invariant PackAll(m, types, pool, usage, ids[..i]) == PackState(pk, used, stopped)
    {
      assert ids[..i + 1][..i] == ids[..i];
      var pod := state.pods.Find(ids[i]);
      if pod.Some? {
        PackKeepsIndices(m, types, pool, usage, ids[..i]);
        var choice := FindClaim(state, types, pk, pod.value);
        if choice.Some? {
          ChosenInRange(m, types, pk, pod.value);
          pk := PlaceOn(pk, ids[i], pod.value, choice.value);
        } else if !CanLaunch(pool, used, 0, 0) {
          stopped := true;
          StopSticks(m, types, pool, usage, ids, i + 1);
          return;
        } else {
          pk := OpenFor(pk, ids[i], pod.value);
          used := used.(nodeCount := used.nodeCount + 1);
        }
      }
    }
    assert ids[..|ids|] == ids;
  }

  lemma {:induction false} StopSticks(
    m: Cluster, types: seq<InstanceType>, pool: NodePool, usage: NodePoolUsage, ids: seq<PodId>, k: nat)
    requires k <= |ids| && PackAll(m, types, pool, usage, ids[..k]).stopped
    ensures PackAll(m, types, pool, usage, ids) == PackAll(m, types, pool, usage, ids[..k])
  {
    hide Choose, AddTo, Open, SwapFront;
    if k < |ids| {
      var front := ids[..|ids| - 1];
      assert front[..k] == ids[..k];
      StopSticks(m, types, pool, usage, front, k);
    } else {
      assert ids[..k] == ids;
    }
  }

  /** Put the pod on a claim, update both indices, and move the claim to the front. */
  method PlaceOn(pk: Packing, p: PodId, pod: Pod, c: nat) returns (placed: Packing)
    requires c < |pk.claims|
    ensures |AddTo(pk, p, pod, c).claims| == |pk.claims| && placed == SwapFront(AddTo(pk, p, pod, c), c)
  {
    hide Labelled, SwapFront, SkewOf;
    var claim, available := AddPod(pk.claims[c], p, pod), pk.available;
    if claim.Of(pod.owner) >= SkewOf(pod) && pod.owner in available {
      available := available[pod.owner := Without(available[pod.owner], c)];
    }
    var byLabel := NoteLabels(pk.byLabel, pod.labels, c);
    placed := MoveToFront(Packing(pk.claims[c := claim], available, byLabel), c);
  }

  method OpenFor(pk: Packing, p: PodId, pod: Pod) returns (grown: Packing)
    ensures grown == Open(pk, p, pod)
  {
    hide Labelled, SkewOf;
    var c := |pk.claims|;
    var room: seq<nat> := pk.RoomFor(pod.owner) + [c];
    var byLabel := NoteLabels(pk.byLabel, pod.labels, c);
    if 1 >= SkewOf(pod) {
      room := Without<nat>(room, c);
    }
    var claim := AddPod(FlexClaim([], 0, 0, 0, map[]), p, pod);
    grown := Packing(pk.claims + [claim], pk.available[pod.owner := room], byLabel);
  }
}
