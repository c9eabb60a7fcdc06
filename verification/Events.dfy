/** The discrete events of the simulation. */
module Events {
  import opened Types

  datatype TerminationSource = ConsolidationDrain | SpotInterrupted | ScaledDown | UnknownSource

  datatype NodeSpec = NodeSpec(instanceType: string, labels: Labels, taints: seq<Taint>, poolName: string,
                               doNotDisrupt: bool)

  datatype Event =
    | PodTerminating(p: PodId, source: TerminationSource)
    | PodDeleted(p: PodId)
    | NodeLaunching(spec: NodeSpec)
    | NodeReady(n: NodeId)
    | NodeCordoned(n: NodeId)
    | NodeDrained(n: NodeId)
    | NodeTerminated(n: NodeId)
    | ReplicaSetReconcile(owner: OwnerId)
    | ScaleUp(owner: OwnerId, count: nat)
    | ScaleDown(owner: OwnerId, count: nat)
    | ProvisioningLoop
    | ConsolidationLoop
    | DeletionCostReconcile
    | MetricsSnapshot

  /** An event and the simulation time at which it fires. */
  datatype ScheduledEvent = At(time: nat, event: Event)
}
