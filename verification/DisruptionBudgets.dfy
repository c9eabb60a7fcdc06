/** Disruption budgets: the running pods they cover, and when they allow an eviction. */
module DisruptionBudgets {
  import opened Types
  import opened Arenas
  import opened ClusterModel
  import opened ClusterStates

  function RunningMatching(m: Cluster, selector: Labels): set<PodId> {
    set p | p in m.pods.live && m.Pod(p).phase == Running && Matches(m.Pod(p).labels, selector)
  }

  method CountRunningMatching(state: ClusterState, selector: Labels) returns (count: nat)
    requires state.Valid()
    ensures count == |RunningMatching(state.Model(), selector)|
  {
    hide Arena.Valid;
    ghost var m := state.Model();
    ghost var counted: set<PodId> := {};
    count := 0;
    var podIds := state.pods.Handles();
    for i := 0 to |podIds|
      invariant state.Model() == m
      invariant count == |counted| && counted <= RunningMatching(m, selector)
      invariant forall k :: 0 <= k < |podIds| ==>
                  (podIds[k] in counted <==> k < i && podIds[k] in RunningMatching(m, selector))
    {
      assert podIds[i] in podIds;
      var p := state.pods.Find(podIds[i]);
      if p.value.phase == Running && Matches(p.value.labels, selector) {
        count, counted := count + 1, counted + {podIds[i]};
      }
    }
    assert forall p :: p in RunningMatching(m, selector) ==> m.pods.Has(p) && p in podIds;
    assert counted == RunningMatching(m, selector);
  }

  /** Every budget that covers the pod has a running pod to spare. */
  predicate AllowsEviction(m: Cluster, pod: Pod) {
    forall pdb | pdb in m.pdbs :: Matches(pod.labels, pdb.selector) ==>
      |RunningMatching(m, pdb.selector)| > pdb.minAvailable
  }

  method CheckEviction(state: ClusterState, pod: Pod) returns (allowed: bool)
    requires state.Valid()
    ensures allowed == AllowsEviction(state.Model(), pod)
  {
    hide Arena.Valid, RunningMatching;
    ghost var m := state.Model();
    for i := 0 to |state.pdbs|
      invariant state.Model() == m
      invariant forall k :: 0 <= k < i && Matches(pod.labels, state.pdbs[k].selector) ==>
                  |RunningMatching(m, state.pdbs[k].selector)| > state.pdbs[k].minAvailable
    {
      var pdb := state.pdbs[i];
      assert pdb in m.pdbs;
      if Matches(pod.labels, pdb.selector) {
        var running := CountRunningMatching(state, pdb.selector);
        if running <= pdb.minAvailable {
          return false;
        }
      }
    }
    allowed := true;
  }

  /** An eviction takes one pod from the budgets that cover it. */
  lemma EvictRunning(m: Cluster, p: PodId, selector: Labels)
    requires CanEvict(m, p)
    ensures RunningMatching(EvictPod(m, p), selector) == RunningMatching(m, selector) - {p}
    ensures p in RunningMatching(m, selector) <==> Matches(m.Pod(p).labels, selector)
  {
    var m' := EvictPod(m, p);
    forall q
      ensures q in RunningMatching(m', selector) <==> q in RunningMatching(m, selector) && q != p
    {
      assert q in m'.pods.live <==> q in m.pods.live;
    }
  }
}
