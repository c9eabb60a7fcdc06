/** The mutable cluster state, proved against the operations on the value `Model()`. */
module ClusterStates {
  import opened Types
  import opened Sequences
  import opened Arenas
  import opened ClusterModel

  class ClusterState {
    const nodes: Arena<Node>
    const pods: Arena<Pod>
    const replicaSets: Arena<ReplicaSet>
    var time: nat
    var pendingQueue: seq<PodId>
    var pdbs: seq<PodDisruptionBudget>

    /** The objects that hold the state. */
    ghost function Repr(): set<object> {
      {this, nodes, pods, replicaSets}
    }

    ghost predicate Valid()
      reads Repr()
    {
      && nodes.Valid() && pods.Valid() && replicaSets.Valid()
      && nodes as object != pods as object
      && nodes as object != replicaSets as object
      && pods as object != replicaSets as object
    }

    ghost function Model(): Cluster
      reads Repr()
    {
      Cluster(nodes.model, pods.model, replicaSets.model, time, pendingQueue, pdbs)
    }

    constructor ()
      ensures Valid() && fresh(nodes) && fresh(pods) && fresh(replicaSets)
      ensures Model() == EmptyCluster()
    {
      nodes := new Arena<Node>();
      pods := new Arena<Pod>();
      replicaSets := new Arena<ReplicaSet>();
      time, pendingQueue, pdbs := 0, [], [];
    }

    method AddNode(node: Node) returns (id: NodeId)
      requires Valid()
      modifies nodes
      ensures Valid()
      ensures Model() == ClusterModel.AddNode(old(Model()), node) && id == NextHandle(old(Model()).nodes)
    {
      hide Arena.Valid;
      id := nodes.Add(node);
    }

    /** The node's pods keep pointing at it. */
    method RemoveNode(id: NodeId) returns (removed: Option<Node>)
      requires Valid()
      modifies nodes
      ensures Valid()
      ensures Model() == ClusterModel.RemoveNode(old(Model()), id) && removed == old(Model()).nodes.Get(id)
    {
      hide Arena.Valid;
      removed := nodes.Delete(id);
    }

    method SubmitPod(pod: Pod) returns (id: PodId)
      requires Valid()
      modifies this, pods
      ensures Valid()
      ensures Model() == ClusterModel.SubmitPod(old(Model()), pod) && id == NextHandle(old(Model()).pods)
    {
      hide Arena.Valid;
      id := pods.Add(pod.(phase := Pending, node := None));
      pendingQueue := pendingQueue + [id];
    }

    /** Write through `get_mut` references to a node and a pod. */
    method WriteBoth(n: NodeId, node: Node, p: PodId, pod: Pod)
      requires Valid() && nodes.model.Has(n) && pods.model.Has(p)
      modifies nodes, pods
      ensures Valid()
      ensures nodes.model == Update(old(nodes.model), n, node)
      ensures pods.model == Update(old(pods.model), p, pod)
    {
      hide Arena.Valid;
      nodes.Write(n, node);
      pods.Write(p, pod);
    }

    /** Bind a Pending pod to a live node and account for its request. */
    method BindPod(p: PodId, n: NodeId) returns (bound: bool)
      requires Valid()
      modifies this, nodes, pods
      ensures Valid()
      ensures Model() == ClusterModel.BindPod(old(Model()), p, n) && bound == CanBind(old(Model()), p, n)
    {
      hide Arena.Valid;
      var found := pods.Find(p);
      if found.None? || found.value.phase != Pending {
        return false;
      }
      var target := nodes.Find(n);
      if target.None? {
        return false;
      }
      var pod, node := found.value, target.value;
      WriteBoth(n, node.(used := node.used.SaturatingAdd(pod.requests), pods := node.pods + [p]),
                p, pod.(phase := Running, node := Some(n)));
      pendingQueue := Dequeue(pendingQueue, p);
      bound := true;
    }

    /** Take a pod off its node, if the node is still there. */
    method Leave(p: PodId, pod: Pod)
      requires Valid()
      modifies nodes
      ensures Valid()
      ensures Model() == old(Model()).(nodes := Unaccount(old(Model()).nodes, p, pod))
    {
      hide Arena.Valid;
      if pod.node.Some? {
        var target := nodes.Find(pod.node.value);
        if target.Some? {
          var node := target.value;
          nodes.Write(pod.node.value,
                      node.(used := node.used.SaturatingSub(pod.requests), pods := Without(node.pods, p)));
        }
      }
    }

    method RemovePod(p: PodId) returns (removed: Option<Pod>)
      requires Valid()
      modifies this, nodes, pods
      ensures Valid()
      ensures Model() == ClusterModel.RemovePod(old(Model()), p) && removed == old(Model()).pods.Get(p)
    {
      hide Arena.Valid;
      removed := pods.Delete(p);
      if removed.Some? {
        Leave(p, removed.value);
        pendingQueue := Dequeue(pendingQueue, p);
      }
    }

    method Requeue(p: PodId, pod: Pod)
      requires Valid() && pods.model.Has(p)
      modifies this, pods
      ensures Valid()
      ensures Model() == old(Model()).(pods := Update(old(Model()).pods, p, pod.(phase := Pending, node := None)),
                                       pending := old(pendingQueue) + [p])
    {
      hide Arena.Valid;
      pods.Write(p, pod.(phase := Pending, node := None));
      pendingQueue := pendingQueue + [p];
    }

    /** Send a Running pod back to the pending queue. */
    method EvictPod(p: PodId) returns (evicted: bool)
      requires Valid()
      modifies this, nodes, pods
      ensures Valid()
      ensures Model() == ClusterModel.EvictPod(old(Model()), p) && evicted == CanEvict(old(Model()), p)
    {
      hide Arena.Valid;
      var found := pods.Find(p);
      if found.None? || found.value.phase != Running || found.value.node.None? {
        return false;
      }
      Leave(p, found.value);
      Requeue(p, found.value);
      evicted := true;
    }

    /** Resize a Running pod in place; `None` when there is nothing to resize. */
    method ResizePod(p: PodId, requests: Resources) returns (status: Option<ResizeStatus>)
      requires Valid()
      modifies this, nodes, pods
      ensures Valid()
      ensures Model() == ClusterModel.ResizePod(old(Model()), p, requests)
      ensures status == if !CanResize(old(Model()), p) then None
                        else if ResizeFits(old(Model()), p, requests) then Some(Completed)
                        else Some(Infeasible)
    {
      hide Arena.Valid;
      var found := pods.Find(p);
      if found.None? || found.value.phase != Running || found.value.node.None? {
        return None;
      }
      var pod, n := found.value, found.value.node.value;
      var target := nodes.Find(n);
      if target.None? {
        return None;
      }
      var node := target.value;
      if !requests.FitsIn(node.Available().SaturatingAdd(pod.requests)) {
        pods.Write(p, pod.(resizeStatus := Some(Infeasible)));
        return Some(Infeasible);
      }
      WriteBoth(n, node.(used := node.used.SaturatingSub(pod.requests).SaturatingAdd(requests)),
                p, pod.(requests := requests, resizeStatus := Some(Completed)));
      status := Some(Completed);
    }

    /** `node.cordoned = true` through `get_mut`. */
    method Cordon(n: NodeId)
      requires Valid()
      modifies nodes
      ensures Valid() && Model() == ClusterModel.Cordon(old(Model()), n)
    {
      hide Arena.Valid;
      var target := nodes.Find(n);
      if target.Some? {
        nodes.Write(n, target.value.(cordoned := true));
      }
    }

    /** `pod.deletion_cost = Some(cost)` through `get_mut`. */
    method SetDeletionCost(p: PodId, cost: int)
      requires Valid()
      modifies pods
      ensures Valid() && Model() == ClusterModel.SetDeletionCost(old(Model()), p, cost)
    {
      hide Arena.Valid;
      var found := pods.Find(p);
      if found.Some? {
        pods.Write(p, found.value.(deletionCost := Some(cost)));
      }
    }
  }

  method EvictEach(state: ClusterState, ids: seq<PodId>)
    requires state.Valid()
    modifies state, state.nodes, state.pods
    ensures state.Valid() && state.Model() == EvictAll(old(state.Model()), ids)
  {
    hide Arena.Valid, EvictPod;
    for i := 0 to |ids|
      invariant state.Valid() && state.Model() == EvictAll(old(state.Model()), ids[..i])
    {
      assert ids[..i + 1][..i] == ids[..i];
      var _ := state.EvictPod(ids[i]);
    }
    assert ids[..|ids|] == ids;
  }
}
