/** Clusters written down outright, to exhibit where a property fails. */
module Examples {
  import opened Types
  import opened Sequences
  import opened Arenas
  import opened ClusterModel

  /** A table from which nothing was ever removed. */
  function TableOf<T>(values: seq<T>): Table<T> {
    Table(map i | 0 <= i < |values| :: Handle(i, 0) := values[i], seq(|values|, _ => 0), [])
  }

  lemma TableOfFacts<T>(values: seq<T>)
    ensures Consistent(TableOf(values))
    ensures forall h :: TableOf(values).Has(h) <==> h.generation == 0 && h.index < |values|
    ensures forall h :: TableOf(values).Has(h) ==> TableOf(values).At(h) == values[h.index]
    ensures forall i :: 0 <= i < |values| ==> Issued(TableOf(values), Handle(i, 0))
  {
  }

  function ClusterOf(nodes: seq<Node>, pods: seq<Pod>, replicaSets: seq<ReplicaSet>, pending: seq<PodId>): Cluster {
    Cluster(TableOf(nodes), TableOf(pods), TableOf(replicaSets), 0, pending, [])
  }

  /** The pod of the handle runs on the `n`-th node. */
  predicate Points(pods: seq<Pod>, p: PodId, n: nat) {
    p.generation == 0 && p.index < |pods| && pods[p.index].node == Some(Handle(n, 0))
  }

  /** Running pods request nothing and run on one of the nodes. */
  predicate PodsPlaced(nodes: seq<Node>, pods: seq<Pod>) {
    forall i :: 0 <= i < |pods| ==>
      if pods[i].phase == Running
      then pods[i].requests == NO_RESOURCES && exists n :: 0 <= n < |nodes| && pods[i].node == Some(Handle(n, 0))
      else pods[i].node == None
  }

  ghost predicate NodeLists(node: Node, pods: seq<Pod>, n: nat) {
    && node.used == NO_RESOURCES && node.allocatable.FitsIn(WIDTH)
    && NoDuplicates(node.pods) && forall p :: p in node.pods <==> Points(pods, p, n)
  }

  ghost predicate QueueLists(pods: seq<Pod>, pending: seq<PodId>) {
    && NoDuplicates(pending)
    && forall p :: p in pending <==> p.generation == 0 && p.index < |pods| && pods[p.index].phase == Pending
  }

  lemma {:induction false} NothingRequested(pods: map<PodId, Pod>, ids: seq<PodId>)
    requires forall p :: p in ids ==> RequestOf(pods, p) == NO_RESOURCES
    ensures TotalRequests(pods, ids) == NO_RESOURCES
  {
    if ids != [] {
      assert ids[|ids| - 1] in ids;
      NothingRequested(pods, ids[..|ids| - 1]);
    }
  }

  lemma ClusterOfInv(nodes: seq<Node>, pods: seq<Pod>, replicaSets: seq<ReplicaSet>, pending: seq<PodId>)
    requires PodsPlaced(nodes, pods) && QueueLists(pods, pending)
    requires forall n :: 0 <= n < |nodes| ==> NodeLists(nodes[n], pods, n)
    ensures Inv(ClusterOf(nodes, pods, replicaSets, pending))
  {
    TableOfFacts(nodes);
    TableOfFacts(pods);
    TableOfFacts(replicaSets);
    hide TableOf, Consistent, Issued, TotalRequests;
    var m := ClusterOf(nodes, pods, replicaSets, pending);
    forall n | m.HasNode(n)
      ensures NodeAgrees(m, n)
    {
      assert NodeLists(nodes[n.index], pods, n.index);
      assert forall p :: p in m.Node(n).pods <==> m.RunsOn(p, n);
      NothingRequested(m.pods.live, m.Node(n).pods);
    }
    forall p | m.HasPod(p)
      ensures PodAgrees(m, p)
    {
    }
  }
}
