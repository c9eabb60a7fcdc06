/** The fast path for identical pods: deal them round-robin over enough claims. */
module UniformBatches {
  import opened Types
  import opened Sequences
  import opened Arenas
  import opened ClusterModel
  import opened ClusterStates
  import opened InstanceTypes

  const HOSTNAME := "kubernetes.io/hostname"

  // ----- How many pods may share a claim -----

  predicate IsHostSpread(c: SpreadConstraint) {
    c.topologyKey == HOSTNAME && c.whenUnsatisfiable.DoNotSchedule?
  }

  predicate IsHostAnti(t: PodAffinityTerm) {
    t.anti && t.affinityType.Required? && t.topologyKey == HOSTNAME
  }

  /** Smallest `max_skew` of the hostname constraints, or `default` without any. */
  function MinSkew(constraints: seq<SpreadConstraint>, default: nat): (skew: nat)
    ensures skew <= default
    ensures forall c :: c in constraints && IsHostSpread(c) ==> skew <= c.maxSkew
    ensures skew == default || exists c :: c in constraints && IsHostSpread(c) && c.maxSkew == skew
  {
    if constraints == [] then default
    else
      var front, last := constraints[..|constraints| - 1], constraints[|constraints| - 1];
      assert constraints == front + [last];
      var rest := MinSkew(front, default);
      if IsHostSpread(last) then MinNat(rest, last.maxSkew) else rest
  }

  predicate RepelsItself(pod: Pod) {
    exists t | t in pod.constraints.podAffinity :: IsHostAnti(t) && Matches(pod.labels, t.selector)
  }

  function MaxPerClaim(pod: Pod): nat {
    var bySpread := MinSkew(pod.constraints.topologySpread, U64_MAX);
    if RepelsItself(pod) then MinNat(bySpread, 1) else bySpread
  }

  /** How many such pods the type holds, not counting GPUs. */
  function PodsOn(t: InstanceType, r: Resources): nat {
    if r.gpu > 0 && t.gpu < r.gpu then 0
    else MinNat(if r.cpu > 0 then t.cpu / r.cpu else U64_MAX, if r.mem > 0 then t.mem / r.mem else U64_MAX)
  }

  function MaxByResources(types: seq<InstanceType>, r: Resources): (max: nat)
    ensures forall t :: t in types ==> PodsOn(t, r) <= max
    ensures max == 0 || exists t :: t in types && PodsOn(t, r) == max
  {
    if types == [] then 0
    else
      var front, last := types[..|types| - 1], types[|types| - 1];
      assert types == front + [last];
      var rest := MaxByResources(front, r);
      if rest < PodsOn(last, r) then PodsOn(last, r) else rest
  }

  function ClaimSize(types: seq<InstanceType>, pod: Pod): (size: nat)
    ensures size >= 1
  {
    Max(MinNat(MaxPerClaim(pod), MaxByResources(types, pod.requests)), 1)
  }

  /** Ceiling division as the machine computes it; `None` when the first sum
      does not fit in a word. */
  function ClaimsNeeded(count: nat, size: nat): Option<nat>
    requires size >= 1
  {
    if count + size > U64_MAX then None else Some((count + size - 1) / size)
  }

  // ----- Dealing round-robin -----

  /** The pods dealt to claim `c` of `k`. */
  function Dealt(ids: seq<PodId>, k: nat, c: nat): seq<PodId>
    requires k >= 1
  {
    if ids == [] then []
    else
      var last := |ids| - 1;
      Dealt(ids[..last], k, c) + (if last % k == c then [ids[last]] else [])
  }

  lemma {:induction false} MulMono(a: nat, b: nat, k: nat)
    requires a <= b
    ensures a * k <= b * k
    decreases k
  {
    if k > 0 {
      MulMono(a, b, k - 1);
      assert a * k == a * (k - 1) + a && b * k == b * (k - 1) + b;
    }
  }

  lemma Quotient(n: nat, k: nat)
    requires k >= 1
    ensures n == n / k * k + n % k && n % k < k
  {
  }

  lemma ModUnique(n: nat, k: nat, q: nat, r: nat)
    requires k >= 1 && n == q * k + r && r < k
    ensures n / k == q && n % k == r
  {
    var q', r' := n / k, n % k;
    Quotient(n, k);
    assert (q + 1) * k == q * k + k && (q' + 1) * k == q' * k + k;
    if q' < q {
      MulMono(q' + 1, q, k);
    } else if q < q' {
      MulMono(q + 1, q', k);
    }
  }

  /** Claim `c` receives the quotient, and one more while the remainder lasts. */
  lemma {:induction false} DealtSize(ids: seq<PodId>, k: nat, c: nat, q: nat, r: nat)
    requires k >= 1 && c < k && |ids| == q * k + r && r < k
    ensures |Dealt(ids, k, c)| == q + (if c < r then 1 else 0)
  {
    if ids != [] {
      var last := |ids| - 1;
      if r > 0 {
        ModUnique(last, k, q, r - 1);
        DealtSize(ids[..last], k, c, q, r - 1);
      } else {
        assert q >= 1;
        assert last == (q - 1) * k + (k - 1);
        ModUnique(last, k, q - 1, k - 1);
        DealtSize(ids[..last], k, c, q - 1, k - 1);
      }
    }
  }

  lemma CeilingFacts(n: nat, m: nat, k: nat)
    requires n >= 1 && m >= 1 && k == (n + m - 1) / m
    ensures 1 <= k <= n && n <= k * m
  {
    Quotient(n + m - 1, m);
    assert k == 0 ==> k * m == 0;
    assert (k - 1) * m == k * m - m;
    assert k >= 1;
    MulMono(1, m, k - 1);
    assert (k - 1) * m == m * (k - 1);
  }

  lemma ShareBounds(n: nat, m: nat, k: nat, q: nat, r: nat)
    requires 1 <= k <= n && n <= k * m && n == q * k + r && r < k
    ensures 1 <= q <= m && (r > 0 ==> q + 1 <= m)
  {
    assert q == 0 ==> q * k == 0;
    assert k * m == m * k && (m + 1) * k == m * k + k;
    if q > m {
      MulMono(m + 1, q, k);
    }
  }

  /** Dealing to the number of claims needed gives every claim between one and
      `size` pods, and no two claims differ by more than one. */
  lemma SharesAreEven(ids: seq<PodId>, size: nat, c: nat, d: nat)
    requires ids != [] && size >= 1
    requires ClaimsNeeded(|ids|, size).Some? && c < ClaimsNeeded(|ids|, size).value &&
             d < ClaimsNeeded(|ids|, size).value
    ensures ClaimsNeeded(|ids|, size).value >= 1
    ensures var k := ClaimsNeeded(|ids|, size).value;
            1 <= |Dealt(ids, k, c)| <= size && |Dealt(ids, k, c)| <= |Dealt(ids, k, d)| + 1
  {
    var k := ClaimsNeeded(|ids|, size).value;
    CeilingFacts(|ids|, size, k);
    var q, r := |ids| / k, |ids| % k;
    assert |ids| == q * k + r;
    ShareBounds(|ids|, size, k, q, r);
    DealtSize(ids, k, c, q, r);
    DealtSize(ids, k, d, q, r);
  }

  /** Claim `c` holds exactly the pods at positions congruent to `c`, each once. */
  lemma {:induction false} DealtMembers(ids: seq<PodId>, k: nat, c: nat)
    requires k >= 1 && NoDuplicates(ids)
    ensures NoDuplicates(Dealt(ids, k, c)) && forall p :: p in Dealt(ids, k, c) ==> p in ids
    ensures forall i :: 0 <= i < |ids| ==> (ids[i] in Dealt(ids, k, c) <==> i % k == c)
  {
    if ids != [] {
      var last := |ids| - 1;
      var front := ids[..last];
      DealtMembers(front, k, c);
      assert ids == front + [ids[last]];
      assert forall i :: 0 <= i < last ==> front[i] == ids[i] && ids[i] != ids[last];
      assert ids[last] !in front;
    }
  }

  // ----- The fast path -----

  predicate SameShape(a: Pod, b: Pod) {
    a.requests == b.requests && a.constraints == b.constraints && a.owner == b.owner
  }

  predicate SameAsNext(m: Cluster, ids: seq<PodId>, i: nat)
    requires i + 1 < |ids|
  {
    m.HasPod(ids[i]) && m.HasPod(ids[i + 1]) && SameShape(m.Pod(ids[i]), m.Pod(ids[i + 1]))
  }

  /** At least two pods, each live and shaped like its neighbour. */
  predicate AllSame(m: Cluster, ids: seq<PodId>) {
    |ids| > 1 && forall i | 0 <= i < |ids| - 1 :: SameAsNext(m, ids, i)
  }

  function BinOf(m: Cluster, ids: seq<PodId>): Bin {
    var total := TotalRequests(m.pods.live, ids);
    Bin(ids, total.cpu, total.mem, total.gpu)
  }

  function DealtBins(m: Cluster, ids: seq<PodId>, k: nat): seq<Bin>
    requires k >= 1
  {
    seq(k, c requires 0 <= c < k => BinOf(m, Dealt(ids, k, c)))
  }

  /** The decisions for a uniform batch; `None` when the arithmetic overflows. */
  function FastPath(m: Cluster, types: seq<InstanceType>, ids: seq<PodId>): Option<seq<Decision>>
    requires ids != [] && m.HasPod(ids[0])
  {
    var size := ClaimSize(types, m.Pod(ids[0]));
    var claims := ClaimsNeeded(|ids|, size);
    if claims.None? then None
    else
      CeilingFacts(|ids|, size, claims.value);
      Some(Decide(types, DealtBins(m, ids, claims.value)))
  }

  lemma {:induction false} AllSameFromFirst(m: Cluster, ids: seq<PodId>, i: nat)
    requires AllSame(m, ids) && i < |ids|
    ensures m.HasPod(ids[0]) && m.HasPod(ids[i]) && SameShape(m.Pod(ids[i]), m.Pod(ids[0]))
  {
    if i > 0 {
      AllSameFromFirst(m, ids, i - 1);
      assert SameAsNext(m, ids, i - 1);
    } else {
      assert SameAsNext(m, ids, 0);
    }
  }

  function Times(n: nat, r: Resources): Resources {
    Resources(n * r.cpu, n * r.mem, n * r.gpu, n * r.ephemeral)
  }

  lemma TimesOneMore(n: nat, r: Resources)
    ensures Times(0, r) == NO_RESOURCES
    ensures Times(n + 1, r) == Times(n, r).Plus(r)
  {
  }

  lemma {:induction false} UniformTotal(m: Cluster, ids: seq<PodId>, r: Resources)
    requires forall p :: p in ids ==> RequestOf(m.pods.live, p) == r
    ensures TotalRequests(m.pods.live, ids) == Times(|ids|, r)
  {
    hide Times;
    if ids == [] {
      TimesOneMore(0, r);
    } else {
      var front, last := ids[..|ids| - 1], ids[|ids| - 1];
      assert last in ids && forall p :: p in front ==> p in ids;
      UniformTotal(m, front, r);
      TimesOneMore(|front|, r);
    }
  }

  lemma DivideFits(capacity: nat, request: nat, share: nat)
    requires request > 0 && share <= capacity / request
    ensures share * request <= capacity
  {
    Quotient(capacity, request);
    MulMono(share, capacity / request, request);
  }

  /** A type on which as many pods fit as the claim holds holds the claim. */
  lemma HoldsShare(t: InstanceType, r: Resources, share: nat)
    requires r.gpu == 0 && share <= PodsOn(t, r)
    ensures t.Holds(share * r.cpu, share * r.mem, share * r.gpu)
  {
    if r.cpu > 0 {
      DivideFits(t.cpu, r.cpu, share);
    }
    if r.mem > 0 {
      DivideFits(t.mem, r.mem, share);
    }
  }

  lemma FitsOneMeansSome(t: InstanceType, r: Resources)
    requires t.Holds(r.cpu, r.mem, r.gpu) && t.cpu <= U64_MAX && t.mem <= U64_MAX
    ensures PodsOn(t, r) >= 1
  {
    if r.cpu > 0 {
      MulMono(1, r.cpu, 1);
      Quotient(t.cpu, r.cpu);
    }
    if r.mem > 0 {
      Quotient(t.mem, r.mem);
    }
  }

  lemma SmallerHolds(t: InstanceType, r: Resources, share: nat)
    requires share >= 1 && t.Holds(share * r.cpu, share * r.mem, share * r.gpu)
    ensures t.Holds(r.cpu, r.mem, r.gpu)
  {
    MulMono(1, share, r.cpu);
    MulMono(1, share, r.mem);
    MulMono(1, share, r.gpu);
  }

  ghost predicate WithinWord(types: seq<InstanceType>) {
    forall t :: t in types ==> t.cpu <= U64_MAX && t.mem <= U64_MAX
  }

  /** One bin of a uniform batch: between one and `size` pods, its total that many requests. */
  lemma ShareFacts(m: Cluster, types: seq<InstanceType>, ids: seq<PodId>, k: nat, c: nat)
    requires AllSame(m, ids) && NoDuplicates(ids) && m.HasPod(ids[0]) && c < k
    requires ClaimsNeeded(|ids|, ClaimSize(types, m.Pod(ids[0]))) == Some(k)
    ensures var bin, r := BinOf(m, Dealt(ids, k, c)), m.Pod(ids[0]).requests;
            && 1 <= |bin.pods| <= ClaimSize(types, m.Pod(ids[0]))
            && bin.cpu == |bin.pods| * r.cpu && bin.mem == |bin.pods| * r.mem && bin.gpu == |bin.pods| * r.gpu
  {
    var r := m.Pod(ids[0]).requests;
    SharesAreEven(ids, ClaimSize(types, m.Pod(ids[0])), c, c);
    DealtMembers(ids, k, c);
    hide Dealt, ClaimSize;
    forall p | p in Dealt(ids, k, c)
      ensures RequestOf(m.pods.live, p) == r
    {
      var i :| 0 <= i < |ids| && ids[i] == p;
      AllSameFromFirst(m, ids, i);
    }
    UniformTotal(m, Dealt(ids, k, c), r);
  }

  /** Some type holds every bin if some type holds one pod, and no type holds
      any bin otherwise. */
  lemma BinsHeld(m: Cluster, types: seq<InstanceType>, ids: seq<PodId>, k: nat, c: nat)
    requires AllSame(m, ids) && NoDuplicates(ids) && m.HasPod(ids[0]) && c < k && WithinWord(types)
    requires ClaimsNeeded(|ids|, ClaimSize(types, m.Pod(ids[0]))) == Some(k)
    ensures var bin, r := BinOf(m, Dealt(ids, k, c)), m.Pod(ids[0]).requests;
            && (SomeHolds(types, bin.cpu, bin.mem, bin.gpu) ==> SomeHolds(types, r.cpu, r.mem, r.gpu))
            && (r.gpu == 0 && SomeHolds(types, r.cpu, r.mem, 0) ==> SomeHolds(types, bin.cpu, bin.mem, bin.gpu))
  {
    ShareFacts(m, types, ids, k, c);
    var bin, r := BinOf(m, Dealt(ids, k, c)), m.Pod(ids[0]).requests;
    hide BinOf, MaxPerClaim;
    if SomeHolds(types, bin.cpu, bin.mem, bin.gpu) {
      var t :| t in types && t.Holds(bin.cpu, bin.mem, bin.gpu);
      SmallerHolds(t, r, |bin.pods|);
    }
    if r.gpu == 0 && SomeHolds(types, r.cpu, r.mem, 0) {
      var t :| t in types && t.Holds(r.cpu, r.mem, 0);
      FitsOneMeansSome(t, r);
      var max := MaxByResources(types, r);
      hide PodsOn;
      var widest :| widest in types && PodsOn(widest, r) == max;
      HoldsShare(widest, r, |bin.pods|);
    }
  }

  /** Every pod is in exactly one decision, and each decision's type holds its pods. */
  ghost predicate AllDecided(m: Cluster, types: seq<InstanceType>, ids: seq<PodId>, decisions: seq<Decision>) {
    && (forall p :: p in ids ==> exists d :: 0 <= d < |decisions| && p in decisions[d].pods)
    && (forall d, e, p :: 0 <= d < e < |decisions| && p in decisions[d].pods ==> p !in decisions[e].pods)
    && (forall d :: 0 <= d < |decisions| ==>
        NoDuplicates(decisions[d].pods) && Buys(types, decisions[d], BinOf(m, decisions[d].pods)))
  }

  lemma DealtOnce(m: Cluster, ids: seq<PodId>, k: nat, c: nat, d: nat, p: PodId)
    requires k >= 1 && NoDuplicates(ids) && p in Dealt(ids, k, c) && p in Dealt(ids, k, d)
    ensures c == d
  {
    DealtMembers(ids, k, c);
    DealtMembers(ids, k, d);
    var i :| 0 <= i < |ids| && ids[i] == p;
  }

  lemma DealtBinsDecided(m: Cluster, types: seq<InstanceType>, ids: seq<PodId>, k: nat, decisions: seq<Decision>)
    requires k >= 1 && NoDuplicates(ids) && |decisions| == k
    requires forall c :: 0 <= c < k ==> Buys(types, decisions[c], BinOf(m, Dealt(ids, k, c)))
    ensures AllDecided(m, types, ids, decisions)
  {
    forall p | p in ids
      ensures exists d :: 0 <= d < |decisions| && p in decisions[d].pods
    {
      var i :| 0 <= i < |ids| && ids[i] == p;
      DealtMembers(ids, k, i % k);
      assert p in decisions[i % k].pods;
    }
    forall d, e, p | 0 <= d < e < |decisions| && p in decisions[d].pods
      ensures p !in decisions[e].pods
    {
      if p in decisions[e].pods {
        DealtOnce(m, ids, k, d, e, p);
      }
    }
    forall d | 0 <= d < |decisions|
      ensures NoDuplicates(decisions[d].pods)
    {
      DealtMembers(ids, k, d);
    }
  }

  /** The most pods that any claim receives: what the first claim receives. */
  function LargestShare(count: nat, k: nat): nat
    requires k >= 1
  {
    count / k + (if count % k > 0 then 1 else 0)
  }

  lemma FirstShareIsLargest(ids: seq<PodId>, k: nat, c: nat)
    requires c < k
    ensures |Dealt(ids, k, 0)| == LargestShare(|ids|, k) && |Dealt(ids, k, c)| <= LargestShare(|ids|, k)
  {
    var q, r := |ids| / k, |ids| % k;
    Quotient(|ids|, k);
    DealtSize(ids, k, 0, q, r);
    DealtSize(ids, k, c, q, r);
  }

  /** Some type holds so many pods with these requests. */
  predicate SomeHoldsMany(types: seq<InstanceType>, n: nat, r: Resources) {
    SomeHolds(types, n * r.cpu, n * r.mem, n * r.gpu)
  }

  lemma FewerAreHeld(types: seq<InstanceType>, n: nat, more: nat, r: Resources)
    requires n <= more && SomeHoldsMany(types, more, r)
    ensures SomeHoldsMany(types, n, r)
  {
    var t :| t in types && t.Holds(more * r.cpu, more * r.mem, more * r.gpu);
    MulMono(n, more, r.cpu);
    MulMono(n, more, r.mem);
    MulMono(n, more, r.gpu);
    assert t.Holds(n * r.cpu, n * r.mem, n * r.gpu);
  }

  lemma ClaimIsHeld(m: Cluster, types: seq<InstanceType>, ids: seq<PodId>, k: nat, c: nat)
    requires AllSame(m, ids) && NoDuplicates(ids) && m.HasPod(ids[0]) && c < k
    requires ClaimsNeeded(|ids|, ClaimSize(types, m.Pod(ids[0]))) == Some(k)
    ensures var pods := Dealt(ids, k, c);
            var bin := BinOf(m, pods);
            && bin.pods == pods != []
            && (SomeHolds(types, bin.cpu, bin.mem, bin.gpu) <==> SomeHoldsMany(types, |pods|, m.Pod(ids[0]).requests))
  {
    ShareFacts(m, types, ids, k, c);
    hide Dealt, AllSame, SomeHolds, ClaimSize;
  }

  lemma DealtToOneBin(m: Cluster, ids: seq<PodId>, k: nat, i: nat)
    requires k >= 1 && NoDuplicates(ids) && i < |ids|
    ensures var bins, bin := DealtBins(m, ids, k), BinOf(m, Dealt(ids, k, i % k));
            bin in bins && ids[i] in bin.pods && forall b :: b in bins && ids[i] in b.pods ==> b == bin
  {
    var c, bins := i % k, DealtBins(m, ids, k);
    DealtMembers(ids, k, c);
    assert bins[c] == BinOf(m, Dealt(ids, k, c));
    forall b | b in bins && ids[i] in b.pods
      ensures b == bins[c]
    {
      var d :| 0 <= d < k && b == bins[d];
      DealtOnce(m, ids, k, c, d, ids[i]);
    }
  }

  /** A pod of the batch is bought an instance exactly when some type holds as
      many such pods as its claim received. */
  lemma PodIsPlaced(m: Cluster, types: seq<InstanceType>, ids: seq<PodId>, i: nat)
    requires AllSame(m, ids) && NoDuplicates(ids) && m.HasPod(ids[0]) && FastPath(m, types, ids).Some? && i < |ids|
    ensures var k := ClaimsNeeded(|ids|, ClaimSize(types, m.Pod(ids[0]))).value;
            && k >= 1
            && ((exists d :: d in FastPath(m, types, ids).value && ids[i] in d.pods) <==>
                SomeHoldsMany(types, |Dealt(ids, k, i % k)|, m.Pod(ids[0]).requests))
  {
    hide AllSame, Dealt, SomeHolds, Decide, ClaimSize, DealtBins, BinOf;
    var k := ClaimsNeeded(|ids|, ClaimSize(types, m.Pod(ids[0]))).value;
    CeilingFacts(|ids|, ClaimSize(types, m.Pod(ids[0])), k);
    var c, r := i % k, m.Pod(ids[0]).requests;
    var pods := Dealt(ids, k, c);
    var bin, bins := BinOf(m, pods), DealtBins(m, ids, k);
    assert FastPath(m, types, ids).value == Decide(types, bins);
    hide FastPath, ClaimsNeeded;
    ClaimIsHeld(m, types, ids, k, c);
    DealtToOneBin(m, ids, k, i);
    DecidedExactly(types, bins, ids[i], bin);
  }

  /** A uniform batch is placed completely exactly when some type holds as many
      of its pods as the fullest claim received. */
  lemma UniformBatchIsPlaced(m: Cluster, types: seq<InstanceType>, ids: seq<PodId>)
    requires AllSame(m, ids) && NoDuplicates(ids) && m.HasPod(ids[0]) && FastPath(m, types, ids).Some?
    ensures var k := ClaimsNeeded(|ids|, ClaimSize(types, m.Pod(ids[0]))).value;
            && k >= 1
            && (AllDecided(m, types, ids, FastPath(m, types, ids).value) <==>
                SomeHoldsMany(types, LargestShare(|ids|, k), m.Pod(ids[0]).requests))
  {
    var r, size := m.Pod(ids[0]).requests, ClaimSize(types, m.Pod(ids[0]));
    var k := ClaimsNeeded(|ids|, size).value;
    CeilingFacts(|ids|, size, k);
    var bins, decisions := DealtBins(m, ids, k), FastPath(m, types, ids).value;
    var share := LargestShare(|ids|, k);
    FirstShareIsLargest(ids, k, 0);
    if SomeHoldsMany(types, share, r) {
      forall c | 0 <= c < k
        ensures bins[c].pods != [] && SomeHolds(types, bins[c].cpu, bins[c].mem, bins[c].gpu)
      {
        ClaimIsHeld(m, types, ids, k, c);
        FirstShareIsLargest(ids, k, c);
        FewerAreHeld(types, |bins[c].pods|, share, r);
      }
      hide Dealt, SomeHolds, BinOf, ClaimSize, AllSame, LargestShare;
      EveryBinDecided(types, bins);
      DealtBinsDecided(m, types, ids, k, decisions);
    } else {
      PodIsPlaced(m, types, ids, 0);
      hide Dealt, SomeHoldsMany, FastPath, LargestShare;
      assert ids[0] in ids;
    }
  }

  /** Without GPUs the batch is placed completely exactly when some type holds
      one of its pods; otherwise nothing at all is decided. */
  lemma BatchWithoutGpuIsPlaced(m: Cluster, types: seq<InstanceType>, ids: seq<PodId>)
    requires AllSame(m, ids) && NoDuplicates(ids) && m.HasPod(ids[0]) && WithinWord(types)
    requires m.Pod(ids[0]).requests.gpu == 0 && FastPath(m, types, ids).Some?
    ensures var r, decisions := m.Pod(ids[0]).requests, FastPath(m, types, ids).value;
            && (SomeHolds(types, r.cpu, r.mem, 0) <==> AllDecided(m, types, ids, decisions))
            && (!SomeHolds(types, r.cpu, r.mem, 0) ==> decisions == [])
  {
    var size := ClaimSize(types, m.Pod(ids[0]));
    var k := ClaimsNeeded(|ids|, size).value;
    CeilingFacts(|ids|, size, k);
    FirstShareIsLargest(ids, k, 0);
    forall c | 0 <= c < k
      ensures SomeHolds(types, m.Pod(ids[0]).requests.cpu, m.Pod(ids[0]).requests.mem, 0) <==>
              SomeHoldsMany(types, |Dealt(ids, k, c)|, m.Pod(ids[0]).requests)
    {
      ClaimIsHeld(m, types, ids, k, c);
      BinsHeld(m, types, ids, k, c);
    }
    UniformBatchIsPlaced(m, types, ids);
    if FastPath(m, types, ids).value != [] {
      var bins := DealtBins(m, ids, k);
      DecisionsFit(types, bins);
      assert FastPath(m, types, ids).value[0] in Decide(types, bins);
      hide Decide, Dealt, BinOf;
      var bin :| bin in bins && Buys(types, FastPath(m, types, ids).value[0], bin);
      var c :| 0 <= c < k && bin == bins[c];
      BinsHeld(m, types, ids, k, c);
    }
  }

  // ----- Where the fast path goes wrong -----

  lemma QuotientSmaller(capacity: nat, request: nat)
    requires request > 0
    ensures capacity / request <= capacity
  {
    Quotient(capacity, request);
    MulMono(1, request, capacity / request);
  }

  /** Pods that request something never overflow the ceiling division, as long
      as capacities and the batch stay within half a word. */
  lemma RequestsNeverOverflow(m: Cluster, types: seq<InstanceType>, ids: seq<PodId>)
    requires ids != [] && m.HasPod(ids[0]) && |ids| <= U64_MAX / 2
    requires forall t :: t in types ==> t.cpu <= U64_MAX / 2 && t.mem <= U64_MAX / 2
    requires m.Pod(ids[0]).requests.cpu > 0 || m.Pod(ids[0]).requests.mem > 0
    ensures FastPath(m, types, ids).Some?
  {
    var r := m.Pod(ids[0]).requests;
    forall t | t in types
      ensures PodsOn(t, r) <= U64_MAX / 2
    {
      if r.cpu > 0 {
        QuotientSmaller(t.cpu, r.cpu);
      } else {
        QuotientSmaller(t.mem, r.mem);
      }
    }
  }

  /** Within half a word the ceiling division overflows exactly for pods that
      request neither CPU nor memory, when some type has their GPUs and the
      batch together with the hostname limit exceeds a word. */
  lemma OverflowsExactly(m: Cluster, types: seq<InstanceType>, ids: seq<PodId>)
    requires ids != [] && m.HasPod(ids[0]) && |ids| <= U64_MAX / 2
    requires forall t :: t in types ==> t.cpu <= U64_MAX / 2 && t.mem <= U64_MAX / 2
    ensures var r := m.Pod(ids[0]).requests;
            FastPath(m, types, ids).None? <==>
            && r.cpu == 0 && r.mem == 0 && |ids| + MaxPerClaim(m.Pod(ids[0])) > U64_MAX
            && (exists t :: t in types && r.gpu <= t.gpu)
  {
    var r := m.Pod(ids[0]).requests;
    hide MaxPerClaim;
    if r.cpu > 0 || r.mem > 0 {
      RequestsNeverOverflow(m, types, ids);
    } else if t :| t in types && r.gpu <= t.gpu {
      assert PodsOn(t, r) == U64_MAX;
      assert MaxByResources(types, r) == U64_MAX;
    } else {
      assert forall t :: t in types ==> PodsOn(t, r) == 0;
    }
  }

  /** Whatever the capacities, pods that request neither CPU nor memory, and may
      share claims freely, always overflow it. */
  lemma ZeroRequestsOverflow(m: Cluster, types: seq<InstanceType>, ids: seq<PodId>, t: InstanceType)
    requires AllSame(m, ids) && m.HasPod(ids[0]) && MaxPerClaim(m.Pod(ids[0])) == U64_MAX
    requires m.Pod(ids[0]).requests.cpu == 0 && m.Pod(ids[0]).requests.mem == 0
    requires t in types && m.Pod(ids[0]).requests.gpu <= t.gpu
    ensures FastPath(m, types, ids).None?
  {
    assert PodsOn(t, m.Pod(ids[0]).requests) == U64_MAX;
  }

  lemma GpuClaimSize(pod: Pod, t: InstanceType)
    requires pod.requests == Resources(1000, 1, 1, 0) && t == InstanceType("gpu", 8000, 8, 1, 1.0)
    requires pod.constraints.topologySpread == [] && pod.constraints.podAffinity == []
    ensures ClaimSize([t], pod) == 8 && t.Holds(1000, 1, 1)
  {
    assert PodsOn(t, pod.requests) == 8;
    assert t in [t] && PodsOn(t, pod.requests) <= MaxByResources([t], pod.requests);
    assert forall x :: x in [t] ==> PodsOn(x, pod.requests) == 8;
  }

  lemma GpuBin(m: Cluster, ids: seq<PodId>)
    requires AllSame(m, ids) && |ids| == 2 && m.HasPod(ids[0]) && m.Pod(ids[0]).requests == Resources(1000, 1, 1, 0)
    ensures BinOf(m, ids).gpu == 2
  {
    var r := m.Pod(ids[0]).requests;
    AllSameFromFirst(m, ids, 1);
    hide AllSame;
    assert forall p :: p in ids ==> p == ids[0] || p == ids[1];
    UniformTotal(m, ids, r);
  }

  /** Two pods that each want the only GPU of the only type: both fit alone, but
      the fast path puts them into one claim that no type holds. */
  lemma GpuBatchIsDropped(m: Cluster, ids: seq<PodId>)
    requires AllSame(m, ids) && |ids| == 2 && m.HasPod(ids[0])
    requires m.Pod(ids[0]).requests == Resources(1000, 1, 1, 0)
    requires m.Pod(ids[0]).constraints.topologySpread == [] && m.Pod(ids[0]).constraints.podAffinity == []
    ensures var t := InstanceType("gpu", 8000, 8, 1, 1.0);
            t.Holds(1000, 1, 1) && FastPath(m, [t], ids) == Some([])
  {
    var t := InstanceType("gpu", 8000, 8, 1, 1.0);
    GpuClaimSize(m.Pod(ids[0]), t);
    GpuBin(m, ids);
    AllDealtToOne(ids);
    hide AllSame, BinOf, ClaimSize, Dealt, Decide;
    assert ClaimsNeeded(2, 8) == Some(1);
    var bin := BinOf(m, ids);
    assert DealtBins(m, ids, 1) == [bin];
    assert forall x :: x in [t] ==> x == t;
    NoBinDecided([t], [bin]);
  }

  lemma {:induction false} AllDealtToOne(ids: seq<PodId>)
    ensures Dealt(ids, 1, 0) == ids
  {
    if ids != [] {
      AllDealtToOne(ids[..|ids| - 1]);
      assert ids == ids[..|ids| - 1] + [ids[|ids| - 1]];
    }
  }

  // ----- The loops -----

  method CheckAllSame(state: ClusterState, ids: seq<PodId>) returns (same: bool)
    requires state.Valid()
    ensures same == AllSame(state.Model(), ids)
  {
    hide Arena.Valid;
    if |ids| <= 1 {
      return false;
    }
    ghost var m := state.Model();
    for i := 0 to |ids| - 1
      invariant state.Model() == m
      invariant forall j :: 0 <= j < i ==> SameAsNext(m, ids, j)
    {
      var a := state.pods.Find(ids[i]);
      var b := state.pods.Find(ids[i + 1]);
      if a.None? || b.None? || !SameShape(a.value, b.value) {
        assert !SameAsNext(m, ids, i);
        return false;
      }
    }
    same := true;
  }

  method ComputeMaxPerClaim(pod: Pod) returns (max: nat)
    ensures max == MaxPerClaim(pod)
  {
    max := U64_MAX;
    var spread := pod.constraints.topologySpread;
    for i := 0 to |spread|
      invariant max == MinSkew(spread[..i], U64_MAX)
    {
      assert spread[..i + 1][..i] == spread[..i];
      if IsHostSpread(spread[i]) {
        max := MinNat(max, spread[i].maxSkew);
      }
    }
    assert spread[..|spread|] == spread;
    var terms := pod.constraints.podAffinity;
    ghost var bySpread := max;
    for i := 0 to |terms|
      invariant max ==
                if exists j :: 0 <= j < i && IsHostAnti(terms[j]) && Matches(pod.labels, terms[j].selector)
                then MinNat(bySpread, 1) else bySpread
    {
      if IsHostAnti(terms[i]) && Matches(pod.labels, terms[i].selector) {
        max := MinNat(max, 1);
      }
    }
    assert RepelsItself(pod) <==>
             exists j :: 0 <= j < |terms| && IsHostAnti(terms[j]) && Matches(pod.labels, terms[j].selector);
  }

  /** Deal the pods round-robin into `k` claims, adding up what they request. */
  method Deal(state: ClusterState, ids: seq<PodId>, k: nat) returns (bins: seq<Bin>)
    requires state.Valid() && k >= 1 && forall p :: p in ids ==> state.Model().HasPod(p)
    ensures bins == DealtBins(state.Model(), ids, k)
  {
    hide Arena.Valid, DealtBins;
    ghost var m := state.Model();
    NothingDealt(m, k);
    var claims := new Bin[k](_ => Bin([], 0, 0, 0));
    assert claims[..] == DealtBins(m, ids[..0], k);
    for i := 0 to |ids|
      invariant state.Valid() && state.Model() == m
      invariant claims[..] == DealtBins(m, ids[..i], k)
    {
      assert ids[i] in ids;
      DealtOneMore(m, ids, i, k);
      var pod := state.pods.Find(ids[i]);
      var r, c := pod.value.requests, i % k;
      claims[c] := Bin(claims[c].pods + [ids[i]], claims[c].cpu + r.cpu, claims[c].mem + r.mem, claims[c].gpu + r.gpu);
    }
    assert ids[..|ids|] == ids;
    bins := claims[..];
  }

  lemma NothingDealt(m: Cluster, k: nat)
    requires k >= 1
    ensures DealtBins(m, [], k) == seq(k, _ => Bin([], 0, 0, 0))
  {
  }

  lemma DealtOneMore(m: Cluster, ids: seq<PodId>, i: nat, k: nat)
    requires k >= 1 && i < |ids| && m.HasPod(ids[i])
    ensures |DealtBins(m, ids[..i], k)| == k
    ensures var bins, c, r := DealtBins(m, ids[..i], k), i % k, m.Pod(ids[i]).requests;
            DealtBins(m, ids[..i + 1], k) ==
            bins[c := Bin(bins[c].pods + [ids[i]], bins[c].cpu + r.cpu, bins[c].mem + r.mem, bins[c].gpu + r.gpu)]
  {
    var c := i % k;
    assert ids[..i + 1][..i] == ids[..i];
    BinGrows(m, Dealt(ids[..i], k, c), ids[i]);
    hide BinOf;
    assert Dealt(ids[..i + 1], k, c) == Dealt(ids[..i], k, c) + [ids[i]];
    assert forall d :: 0 <= d < k && d != c ==> Dealt(ids[..i + 1], k, d) == Dealt(ids[..i], k, d);
  }

  lemma BinGrows(m: Cluster, ids: seq<PodId>, p: PodId)
    requires m.HasPod(p)
    ensures var r := m.Pod(p).requests;
            BinOf(m, ids + [p]) ==
              Bin(ids + [p], BinOf(m, ids).cpu + r.cpu, BinOf(m, ids).mem + r.mem, BinOf(m, ids).gpu + r.gpu)
  {
    TotalRequestsAppend(m.pods.live, ids, p);
  }

  /** Decide a uniform batch; `None` when the machine arithmetic would overflow. */
  method PlanUniform(state: ClusterState, types: seq<InstanceType>, ids: seq<PodId>)
    returns (decisions: Option<seq<Decision>>)
    requires state.Valid() && AllSame(state.Model(), ids) && state.Model().HasPod(ids[0])
    ensures decisions == FastPath(state.Model(), types, ids)
  {
    hide Arena.Valid, MaxPerClaim, DealtBins, Decide;
    var first := state.pods.Find(ids[0]);
    var maxPer := ComputeMaxPerClaim(first.value);
    var size := Max(MinNat(maxPer, MaxByResources(types, first.value.requests)), 1);
    if |ids| + size > U64_MAX {
      return None;
    }
    var k := (|ids| + size - 1) / size;
    CeilingFacts(|ids|, size, k);
    forall p | p in ids
      ensures state.Model().HasPod(p)
    {
      var i :| 0 <= i < |ids| && ids[i] == p;
      AllSameFromFirst(state.Model(), ids, i);
    }
    var bins := Deal(state, ids, k);
    var decided := Finalize(types, bins);
    decisions := Some(decided);
  }
}
