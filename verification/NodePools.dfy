/** Node pools, their limits, and version profiles. */
module NodePools {
  import opened Types

  datatype NodePoolLimits = NodePoolLimits(maxNodes: Option<nat>, maxCpu: Option<nat>, maxMem: Option<nat>)

  /** An empty list of instance types allows every type of the catalog. */
  datatype NodePool = NodePool(
    name: string,
    instanceTypes: seq<string>,
    limits: NodePoolLimits,
    labels: Labels,
    taints: seq<Taint>,
    maxDisruptedPct: nat,
    maxDisruptedCount: Option<nat>,
    doNotDisrupt: bool)

  datatype NodePoolUsage = NodePoolUsage(nodeCount: nat, cpu: nat, mem: nat)

  /** Launching an instance with these resources stays within the limits. */
  predicate CanLaunch(pool: NodePool, usage: NodePoolUsage, cpu: nat, mem: nat) {
    && (pool.limits.maxNodes.Some? ==> usage.nodeCount < pool.limits.maxNodes.value)
    && (pool.limits.maxCpu.Some? ==> usage.cpu + cpu <= pool.limits.maxCpu.value)
    && (pool.limits.maxMem.Some? ==> usage.mem + mem <= pool.limits.maxMem.value)
  }

  datatype KarpenterVersion = V0_35 | V1

  datatype VersionProfile = VersionProfile(version: KarpenterVersion, hashBasedDrift: bool)
}
