/** Instance types, and choosing the cheapest one for a bin of pods. */
module InstanceTypes {
  import opened Types

  /** A type with the capacity that is left to pods after overhead. */
  datatype InstanceType = InstanceType(name: string, cpu: nat, mem: nat, gpu: nat, price: real) {
    predicate Holds(c: nat, m: nat, g: nat) {
      gpu >= g && cpu >= c && mem >= m
    }
  }

  /** Pods that will share a new node, with their summed requests. */
  datatype Bin = Bin(pods: seq<PodId>, cpu: nat, mem: nat, gpu: nat)

  datatype Decision = Decision(instanceType: string, price: real, pods: seq<PodId>)

  predicate SomeHolds(types: seq<InstanceType>, c: nat, m: nat, g: nat) {
    exists t | t in types :: t.Holds(c, m, g)
  }

  /** The first of the cheapest types that hold the bin. */
  function Cheapest(types: seq<InstanceType>, bin: Bin): (best: Option<InstanceType>)
    ensures best.Some? <==> SomeHolds(types, bin.cpu, bin.mem, bin.gpu)
    ensures best.Some? ==> best.value in types && best.value.Holds(bin.cpu, bin.mem, bin.gpu)
    ensures best.Some? ==> forall t :: t in types && t.Holds(bin.cpu, bin.mem, bin.gpu) ==> best.value.price <= t.price
  {
    if types == [] then None
    else
      var front, last := types[..|types| - 1], types[|types| - 1];
      assert types == front + [last];
      var best := Cheapest(front, bin);
      if last.Holds(bin.cpu, bin.mem, bin.gpu) && (best.None? || last.price < best.value.price)
      then Some(last) else best
  }

  /** One decision for every nonempty bin that some type holds. */
  function Decide(types: seq<InstanceType>, bins: seq<Bin>): seq<Decision> {
    if bins == [] then []
    else
      var bin := bins[|bins| - 1];
      var best := Cheapest(types, bin);
      Decide(types, bins[..|bins| - 1]) +
      (if bin.pods != [] && best.Some? then [Decision(best.value.name, best.value.price, bin.pods)] else [])
  }

  /** The decision buys a cheapest type that holds the bin. */
  ghost predicate Buys(types: seq<InstanceType>, d: Decision, bin: Bin) {
    && d.pods == bin.pods
    && (exists t :: t in types && t.name == d.instanceType && t.price == d.price && t.Holds(bin.cpu, bin.mem, bin.gpu))
    && (forall t :: t in types && t.Holds(bin.cpu, bin.mem, bin.gpu) ==> d.price <= t.price)
  }

  /** Every decision comes from one bin that its type holds. */
  lemma {:induction false} DecisionsFit(types: seq<InstanceType>, bins: seq<Bin>)
    ensures forall d :: d in Decide(types, bins) ==> exists bin :: bin in bins && Buys(types, d, bin)
  {
    if bins != [] {
      var front, last := bins[..|bins| - 1], bins[|bins| - 1];
      DecisionsFit(types, front);
      assert bins == front + [last];
      var best := Cheapest(types, last);
      if best.Some? {
        assert Buys(types, Decision(best.value.name, best.value.price, last.pods), last);
      }
      forall d | d in Decide(types, bins)
        ensures exists bin :: bin in bins && Buys(types, d, bin)
      {
        if d in Decide(types, front) {
          var bin :| bin in front && Buys(types, d, bin);
          assert bin in bins;
        } else {
          assert last in bins;
        }
      }
    }
  }

  /** When every bin is held by some type, each gets its decision, in order. */
  lemma {:induction false} EveryBinDecided(types: seq<InstanceType>, bins: seq<Bin>)
    requires forall bin :: bin in bins ==> bin.pods != [] && SomeHolds(types, bin.cpu, bin.mem, bin.gpu)
    ensures var decisions := Decide(types, bins);
            |decisions| == |bins| && forall k :: 0 <= k < |bins| ==> Buys(types, decisions[k], bins[k])
  {
    hide Buys, SomeHolds;
    if bins != [] {
      var last := bins[|bins| - 1];
      assert last in bins;
      EveryBinDecided(types, bins[..|bins| - 1]);
      CheapestBuys(types, last);
    }
  }

  lemma CheapestBuys(types: seq<InstanceType>, bin: Bin)
    requires SomeHolds(types, bin.cpu, bin.mem, bin.gpu)
    ensures Cheapest(types, bin).Some?
    ensures var best := Cheapest(types, bin).value; Buys(types, Decision(best.name, best.price, bin.pods), bin)
  {
  }

  /** A pod listed in one bin only is bought an instance exactly when some type
      holds that bin. */
  lemma {:induction false} DecidedExactly(types: seq<InstanceType>, bins: seq<Bin>, p: PodId, bin: Bin)
    requires bin in bins && p in bin.pods && forall b :: b in bins && p in b.pods ==> b == bin
    ensures (exists d :: d in Decide(types, bins) && p in d.pods) <==> SomeHolds(types, bin.cpu, bin.mem, bin.gpu)
  {
    hide SomeHolds;
    var front, last := bins[..|bins| - 1], bins[|bins| - 1];
    assert bins == front + [last];
    if bin in front {
      DecidedExactly(types, front, p, bin);
    } else {
      DecisionsFit(types, front);
      assert forall d :: d in Decide(types, front) ==> p !in d.pods;
      var best := Cheapest(types, last);
      if best.Some? {
        assert Decision(best.value.name, best.value.price, last.pods) in Decide(types, bins);
      }
    }
  }

  /** When no bin is held by any type, nothing is decided. */
  lemma {:induction false} NoBinDecided(types: seq<InstanceType>, bins: seq<Bin>)
    requires forall bin :: bin in bins ==> !SomeHolds(types, bin.cpu, bin.mem, bin.gpu)
    ensures Decide(types, bins) == []
  {
    if bins != [] {
      assert bins[|bins| - 1] in bins;
      NoBinDecided(types, bins[..|bins| - 1]);
    }
  }

  method ChooseCheapest(types: seq<InstanceType>, bin: Bin) returns (best: Option<InstanceType>)
    ensures best == Cheapest(types, bin)
  {
    best := None;
    for i := 0 to |types|
      invariant best == Cheapest(types[..i], bin)
    {
      assert types[..i + 1][..i] == types[..i];
      if types[i].Holds(bin.cpu, bin.mem, bin.gpu) && (best.None? || types[i].price < best.value.price) {
        best := Some(types[i]);
      }
    }
    assert types[..|types|] == types;
  }

  /** Pick a type for each bin; bins that no type holds are dropped. */
  method Finalize(types: seq<InstanceType>, bins: seq<Bin>) returns (decisions: seq<Decision>)
    ensures decisions == Decide(types, bins)
  {
    decisions := [];
    for i := 0 to |bins|
      invariant decisions == Decide(types, bins[..i])
    {
      assert bins[..i + 1][..i] == bins[..i];
      if bins[i].pods != [] {
        var best := ChooseCheapest(types, bins[i]);
        if best.Some? {
          decisions := decisions + [Decision(best.value.name, best.value.price, bins[i].pods)];
        }
      }
    }
    assert bins[..|bins|] == bins;
  }
}
