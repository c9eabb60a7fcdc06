/** Placing displaced pods first fit, and what a successful first fit proves. */
module Relocation {
  import opened Types
  import opened Sequences
  import opened Arenas
  import opened ClusterModel
  import opened ClusterStates
  import opened Filters

  /** What is still free on a node during a simulated placement. */
  datatype Slot = Slot(node: NodeId, free: Resources)

  datatype Move = Move(pod: PodId, target: NodeId)

  /** Ready, uncordoned nodes that are not leaving, in slot order. */
  function SlotsAmong(m: Cluster, leaving: set<NodeId>, ids: seq<NodeId>): seq<Slot> {
    if ids == [] then []
    else
      var n := ids[|ids| - 1];
      SlotsAmong(m, leaving, ids[..|ids| - 1]) +
      (if m.HasNode(n) && m.Node(n).Schedulable() && n !in leaving then [Slot(n, m.Node(n).Available())] else [])
  }

  function FreeSlots(m: Cluster, leaving: set<NodeId>): seq<Slot> {
    SlotsAmong(m, leaving, Order(m.nodes))
  }

  ghost predicate Accepts(m: Cluster, pod: Pod, slot: Slot) {
    pod.requests.FitsIn(slot.free) && m.HasNode(slot.node) && PassesOtherFilters(m, pod, m.Node(slot.node))
  }

  /** The first slot that accepts the pod; the number of slots if none does. */
  ghost function FindSlot(m: Cluster, pod: Pod, slots: seq<Slot>): (i: nat)
    ensures i <= |slots| && (i < |slots| ==> Accepts(m, pod, slots[i]))
    ensures forall j :: 0 <= j < i ==> !Accepts(m, pod, slots[j])
  {
    if slots == [] then 0
    else
      var last, i := |slots| - 1, FindSlot(m, pod, slots[..|slots| - 1]);
      if i < last || Accepts(m, pod, slots[last]) then i else |slots|
  }

  datatype Fit = NoFit | Fitted(slots: seq<Slot>, moves: seq<Move>)

  function Taken(slots: seq<Slot>, i: nat, requests: Resources): seq<Slot>
    requires i < |slots|
  {
    slots[i := Slot(slots[i].node, slots[i].free.SaturatingSub(requests))]
  }

  /** Place the pods one after the other, each in the first slot that accepts
      it. Pods that are gone are skipped. */
  ghost function FirstFit(m: Cluster, slots: seq<Slot>, pods: seq<PodId>): Fit {
    if pods == [] then Fitted(slots, [])
    else
      var f, p := FirstFit(m, slots, pods[..|pods| - 1]), pods[|pods| - 1];
      if f.NoFit? || !m.HasPod(p) then f
      else
        var i := FindSlot(m, m.Pod(p), f.slots);
        if i == |f.slots| then NoFit
        else Fitted(Taken(f.slots, i, m.Pod(p).requests), f.moves + [Move(p, f.slots[i].node)])
  }

  // ----- Joint placements -----

  /** What the moves would add to a node. */
  function Load(m: Cluster, moves: seq<Move>, n: NodeId): Resources {
    if moves == [] then NO_RESOURCES
    else
      var last, rest := moves[|moves| - 1], Load(m, moves[..|moves| - 1], n);
      if last.target == n then rest.Plus(RequestOf(m.pods.live, last.pod)) else rest
  }

  function MovedPods(moves: seq<Move>): seq<PodId> {
    seq(|moves|, i requires 0 <= i < |moves| => moves[i].pod)
  }

  /** The target stays, is ready and uncordoned, and passes the pod's filters. */
  ghost predicate Welcomes(m: Cluster, leaving: set<NodeId>, move: Move) {
    && m.HasPod(move.pod) && m.HasNode(move.target)
    && m.Node(move.target).Schedulable() && move.target !in leaving
    && PassesOtherFilters(m, m.Pod(move.pod), m.Node(move.target))
  }

  /** The moves place each of the pods once, on nodes that welcome it, and no
      node receives more than it has free. */
  ghost predicate Relocates(m: Cluster, leaving: set<NodeId>, pods: set<PodId>, moves: seq<Move>) {
    && NoDuplicates(MovedPods(moves)) && Elements(MovedPods(moves)) == pods
    && (forall move :: move in moves ==> Welcomes(m, leaving, move))
    && (forall n :: m.HasNode(n) ==> Load(m, moves, n).FitsIn(m.Node(n).Available()))
  }

  ghost predicate CanRelocate(m: Cluster, leaving: set<NodeId>, pods: set<PodId>) {
    exists moves :: Relocates(m, leaving, pods, moves)
  }

  // ----- A successful first fit is a joint placement -----

  ghost predicate DistinctSlots(slots: seq<Slot>) {
    forall i, j :: 0 <= i < j < |slots| ==> slots[i].node != slots[j].node
  }

  lemma {:induction false} SlotsAmongFacts(m: Cluster, leaving: set<NodeId>, ids: seq<NodeId>)
    requires NoDuplicates(ids)
    ensures var slots := SlotsAmong(m, leaving, ids);
            && DistinctSlots(slots)
            && (forall s :: s in slots ==>
                  s.node in ids && m.HasNode(s.node) && m.Node(s.node).Schedulable() && s.node !in leaving
                  && s.free == m.Node(s.node).Available())
  {
    if ids != [] {
      var front, last := ids[..|ids| - 1], ids[|ids| - 1];
      SlotsAmongFacts(m, leaving, front);
      assert ids == front + [last];
      assert last !in front;
    }
  }

  /** The slots together hold what they held before, less the load of the moves. */
  ghost predicate Balanced(m: Cluster, slots: seq<Slot>, f: Fit)
    requires f.Fitted?
  {
    && |f.slots| == |slots|
    && (forall k :: 0 <= k < |slots| ==>
          f.slots[k].node == slots[k].node && slots[k].free == f.slots[k].free.Plus(Load(m, f.moves, slots[k].node)))
  }

  /** Each move goes to one of the slots and passes the filters there. */
  ghost predicate Placed(m: Cluster, slots: seq<Slot>, moves: seq<Move>) {
    forall move :: move in moves ==>
      && m.HasPod(move.pod) && m.HasNode(move.target)
      && PassesOtherFilters(m, m.Pod(move.pod), m.Node(move.target))
      && (exists k :: 0 <= k < |slots| && slots[k].node == move.target)
  }

  lemma TakenBalanced(m: Cluster, slots: seq<Slot>, f: Fit, p: PodId, i: nat)
    requires f.Fitted? && Balanced(m, slots, f) && DistinctSlots(slots) && m.HasPod(p)
    requires i < |f.slots| && m.Pod(p).requests.FitsIn(f.slots[i].free)
    ensures Balanced(m, slots, Fitted(Taken(f.slots, i, m.Pod(p).requests), f.moves + [Move(p, f.slots[i].node)]))
  {
    var moves := f.moves + [Move(p, f.slots[i].node)];
    assert moves[..|moves| - 1] == f.moves;
    forall k | 0 <= k < |slots|
      ensures var t := Taken(f.slots, i, m.Pod(p).requests)[k];
              t.node == slots[k].node && slots[k].free == t.free.Plus(Load(m, moves, slots[k].node))
    {
      assert k != i ==> slots[k].node != slots[i].node;
    }
  }

  lemma {:induction false} FirstFitFacts(m: Cluster, slots: seq<Slot>, pods: seq<PodId>)
    requires DistinctSlots(slots) && FirstFit(m, slots, pods).Fitted?
    ensures var f := FirstFit(m, slots, pods);
            Balanced(m, slots, f) && Placed(m, slots, f.moves) && MovedPods(f.moves) == LivePods(m, pods)
  {
    hide DistinctSlots, PassesOtherFilters;
    if pods != [] {
      var front, p := pods[..|pods| - 1], pods[|pods| - 1];
      FirstFitFacts(m, slots, front);
      var f := FirstFit(m, slots, front);
      if m.HasPod(p) {
        var i := FindSlot(m, m.Pod(p), f.slots);
        assert Accepts(m, m.Pod(p), f.slots[i]);
        hide Balanced, FirstFit, FindSlot, Accepts, Load;
        FitsSlot(m, slots, f, p, i);
      }
    }
  }

  lemma FitsSlot(m: Cluster, slots: seq<Slot>, f: Fit, p: PodId, i: nat)
    requires f.Fitted? && Balanced(m, slots, f) && DistinctSlots(slots) && m.HasPod(p) && Placed(m, slots, f.moves)
    requires i < |f.slots| && Accepts(m, m.Pod(p), f.slots[i])
    ensures var moves := f.moves + [Move(p, f.slots[i].node)];
            && Balanced(m, slots, Fitted(Taken(f.slots, i, m.Pod(p).requests), moves))
            && Placed(m, slots, moves) && MovedPods(moves) == MovedPods(f.moves) + [p]
  {
    TakenBalanced(m, slots, f, p, i);
    hide Load, PassesOtherFilters;
  }

  /** If first fit places the pods, they can be relocated together. */
  lemma FirstFitRelocates(m: Cluster, leaving: set<NodeId>, pods: seq<PodId>)
    requires Inv(m) && NoDuplicates(pods) && FirstFit(m, FreeSlots(m, leaving), pods).Fitted?
    ensures CanRelocate(m, leaving, Elements(LivePods(m, pods)))
  {
    assert Consistent(m.nodes);
    OrderFacts(m.nodes);
    hide Inv, Order, SlotsAmong, FirstFit, LivePods, PassesOtherFilters;
    SlotsAmongFacts(m, leaving, Order(m.nodes));
    var slots := FreeSlots(m, leaving);
    FirstFitFacts(m, slots, pods);
    LivePodsFacts(m, pods);
    var moves := FirstFit(m, slots, pods).moves;
    forall move | move in moves
      ensures Welcomes(m, leaving, move)
    {
      var k :| 0 <= k < |slots| && slots[k].node == move.target;
      assert slots[k] in slots;
    }
    forall n | m.HasNode(n)
      ensures Load(m, moves, n).FitsIn(m.Node(n).Available())
    {
      LoadFits(m, slots, FirstFit(m, slots, pods), n);
    }
    assert Relocates(m, leaving, Elements(LivePods(m, pods)), moves);
  }

  lemma LoadFits(m: Cluster, slots: seq<Slot>, f: Fit, n: NodeId)
    requires f.Fitted? && Balanced(m, slots, f) && Placed(m, slots, f.moves) && m.HasNode(n)
    requires forall s :: s in slots ==> m.HasNode(s.node) && s.free == m.Node(s.node).Available()
    ensures Load(m, f.moves, n).FitsIn(m.Node(n).Available())
  {
    if k :| 0 <= k < |slots| && slots[k].node == n {
      assert slots[k] in slots;
    } else {
      NoLoad(m, f.moves, n);
    }
  }

  lemma {:induction false} NoLoad(m: Cluster, moves: seq<Move>, n: NodeId)
    requires forall move :: move in moves ==> move.target != n
    ensures Load(m, moves, n) == NO_RESOURCES
  {
    if moves != [] {
      assert moves[|moves| - 1] in moves;
      NoLoad(m, moves[..|moves| - 1], n);
    }
  }

  // ----- Joint placements survive dropping -----

  function Keep(moves: seq<Move>, pods: set<PodId>): seq<Move> {
    if moves == [] then []
    else
      var kept, last := Keep(moves[..|moves| - 1], pods), moves[|moves| - 1];
      if last.pod in pods then kept + [last] else kept
  }

  lemma {:induction false} KeepMembers(moves: seq<Move>, pods: set<PodId>)
    requires NoDuplicates(MovedPods(moves))
    ensures var kept := Keep(moves, pods);
            && NoDuplicates(MovedPods(kept))
            && (forall move :: move in kept <==> move in moves && move.pod in pods)
  {
    if moves != [] {
      var front, last := moves[..|moves| - 1], moves[|moves| - 1];
      assert moves == front + [last];
      assert MovedPods(moves) == MovedPods(front) + [last.pod];
      assert MovedPods(moves)[..|front|] == MovedPods(front);
      KeepMembers(front, pods);
      var kept := Keep(front, pods);
      assert MovedPods(kept + [last]) == MovedPods(kept) + [last.pod];
      forall i | 0 <= i < |kept|
        ensures kept[i].pod != last.pod
      {
        assert kept[i] in front;
        var k :| 0 <= k < |front| && front[k] == kept[i];
        assert MovedPods(moves)[k] == kept[i].pod && MovedPods(moves)[|front|] == last.pod;
      }
    }
  }

  lemma {:induction false} KeepLoad(m: Cluster, moves: seq<Move>, pods: set<PodId>, n: NodeId)
    ensures Load(m, Keep(moves, pods), n).FitsIn(Load(m, moves, n))
  {
    if moves != [] {
      KeepLoad(m, moves[..|moves| - 1], pods, n);
      var kept := Keep(moves[..|moves| - 1], pods);
      assert (kept + [moves[|moves| - 1]])[..|kept|] == kept;
    }
  }

  lemma MovedPodsMembers(moves: seq<Move>)
    ensures forall p :: p in Elements(MovedPods(moves)) <==> exists move :: move in moves && move.pod == p
  {
    forall p
      ensures p in Elements(MovedPods(moves)) <==> exists move :: move in moves && move.pod == p
    {
      if p in Elements(MovedPods(moves)) {
        var k :| 0 <= k < |moves| && MovedPods(moves)[k] == p;
        assert moves[k] in moves;
      }
      if move :| move in moves && move.pod == p {
        var k :| 0 <= k < |moves| && moves[k] == move;
        assert MovedPods(moves)[k] == p;
      }
    }
  }

  /** Fewer pods and fewer leaving nodes can still be relocated. */
  lemma DroppingKeepsRelocation(
    m: Cluster, leaving: set<NodeId>, pods: set<PodId>, leaving': set<NodeId>, pods': set<PodId>)
    requires CanRelocate(m, leaving, pods) && leaving' <= leaving && pods' <= pods
    ensures CanRelocate(m, leaving', pods')
  {
    hide Load, PassesOtherFilters, MovedPods;
    var moves :| Relocates(m, leaving, pods, moves);
    KeepMembers(moves, pods');
    var kept := Keep(moves, pods');
    MovedPodsMembers(moves);
    MovedPodsMembers(kept);
    assert Elements(MovedPods(kept)) == pods';
    forall move | move in kept
      ensures Welcomes(m, leaving', move)
    {
      assert Welcomes(m, leaving, move);
    }
    forall n | m.HasNode(n)
      ensures Load(m, kept, n).FitsIn(m.Node(n).Available())
    {
      KeepLoad(m, moves, pods', n);
    }
    assert Relocates(m, leaving', pods', kept);
  }

  // ----- The simulated placement -----

  method CollectSlots(state: ClusterState, leaving: set<NodeId>) returns (slots: seq<Slot>)
    requires state.Valid()
    ensures slots == FreeSlots(state.Model(), leaving)
  {
    hide Arena.Valid;
    ghost var m := state.Model();
    slots := [];
    var ids := state.nodes.Handles();
    for i := 0 to |ids|
      invariant state.Model() == m
      invariant slots == SlotsAmong(m, leaving, ids[..i])
    {
      assert ids[..i + 1][..i] == ids[..i];
      var node := state.nodes.Find(ids[i]);
      if node.Some? && ids[i] !in leaving && node.value.ready && !node.value.cordoned {
        slots := slots + [Slot(ids[i], node.value.Available())];
      }
    }
    assert ids[..|ids|] == ids;
  }

  method ChooseSlot(state: ClusterState, pod: Pod, slots: seq<Slot>) returns (i: nat)
    requires state.Valid() && Inv(state.Model())
    ensures i == FindSlot(state.Model(), pod, slots)
  {
    hide Arena.Valid, Inv, PassesOtherFilters;
    ghost var m := state.Model();
    i := 0;
    while i < |slots|
      invariant i <= |slots| && state.Model() == m
      invariant forall j :: 0 <= j < i ==> !Accepts(m, pod, slots[j])
    {
      if pod.requests.FitsIn(slots[i].free) {
        var target := state.nodes.Find(slots[i].node);
        if target.Some? {
          var pass := FilterOthers(state, pod, target.value);
          if pass {
            assert Accepts(m, pod, slots[i]);
            return;
          }
        }
      }
      i := i + 1;
    }
  }

  /** Whether first fit places every pod that is still there. */
  method PlaceAll(state: ClusterState, initial: seq<Slot>, pods: seq<PodId>) returns (fits: bool)
    requires state.Valid() && Inv(state.Model())
    ensures fits == FirstFit(state.Model(), initial, pods).Fitted?
  {
    hide Arena.Valid, Inv, FindSlot, Accepts;
    ghost var m := state.Model();
    ghost var moves: seq<Move> := [];
    var slots := initial;
    for k := 0 to |pods|
      invariant state.Model() == m
      invariant FirstFit(m, initial, pods[..k]) == Fitted(slots, moves)
    {
      assert pods[..k + 1][..k] == pods[..k];
      var pod := state.pods.Find(pods[k]);
      if pod.Some? {
        var i := ChooseSlot(state, pod.value, slots);
        if i == |slots| {
          FailureSticks(m, initial, pods, k + 1);
          return false;
        }
        moves := moves + [Move(pods[k], slots[i].node)];
        slots := Taken(slots, i, pod.value.requests);
      }
    }
    assert pods[..|pods|] == pods;
    fits := true;
  }

  lemma {:induction false} FailureSticks(m: Cluster, slots: seq<Slot>, pods: seq<PodId>, k: nat)
    requires k <= |pods| && FirstFit(m, slots, pods[..k]).NoFit?
    ensures FirstFit(m, slots, pods).NoFit?
  {
    if k < |pods| {
      var front := pods[..|pods| - 1];
      assert front[..k] == pods[..k];
      FailureSticks(m, slots, front, k);
    } else {
      assert pods[..k] == pods;
    }
  }
}
