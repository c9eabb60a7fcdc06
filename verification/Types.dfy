/** The value types of the simulator. */
module Types {

  datatype Option<+T> = None | Some(value: T)

  /** Generational index into an arena. */
  datatype Handle = Handle(index: nat, generation: nat)

  type NodeId = Handle
  type PodId = Handle
  type ReplicaSetId = Handle
  type OwnerId = nat

  // ----- Resources -----

  const U32_MAX: nat := 0xFFFF_FFFF
  const U64_MAX: nat := 0xFFFF_FFFF_FFFF_FFFF

  function Min(a: int, b: int): int { if a < b then a else b }

  function Max(a: int, b: int): int { if a < b then b else a }

  function MinNat(a: nat, b: nat): nat { if a < b then a else b }

  function MonusNat(a: nat, b: nat): nat { if a < b then 0 else a - b }

  datatype Resources = Resources(cpu: nat, mem: nat, gpu: nat, ephemeral: nat) {

    /** True if this request fits within `capacity` on every dimension. */
    predicate FitsIn(capacity: Resources) {
      && cpu <= capacity.cpu
      && mem <= capacity.mem
      && gpu <= capacity.gpu
      && ephemeral <= capacity.ephemeral
    }

    /** Exact componentwise sum. */
    function Plus(other: Resources): Resources {
      Resources(cpu + other.cpu, mem + other.mem, gpu + other.gpu, ephemeral + other.ephemeral)
    }

    /** Componentwise sum clamped to the machine width of each field. */
    function SaturatingAdd(other: Resources): Resources {
      Resources(
        MinNat(cpu + other.cpu, U64_MAX),
        MinNat(mem + other.mem, U64_MAX),
        MinNat(gpu + other.gpu, U32_MAX),
        MinNat(ephemeral + other.ephemeral, U64_MAX))
    }

    /** Componentwise difference clamped at zero. */
    function SaturatingSub(other: Resources): Resources {
      Resources(
        MonusNat(cpu, other.cpu),
        MonusNat(mem, other.mem),
        MonusNat(gpu, other.gpu),
        MonusNat(ephemeral, other.ephemeral))
    }
  }

  const NO_RESOURCES: Resources := Resources(0, 0, 0, 0)

  /** The largest representable quantity of each resource. */
  const WIDTH: Resources := Resources(U64_MAX, U64_MAX, U32_MAX, U64_MAX)

  // ----- Labels -----

  /** Key-value pairs; the first pair with a key decides its value. */
  type Labels = seq<(string, string)>

  function Lookup(labels: Labels, key: string): Option<string> {
    if labels == [] then None
    else if labels[0].0 == key then Some(labels[0].1)
    else Lookup(labels[1..], key)
  }

  /** Every pair of the selector is what the labels say about its key. */
  predicate Matches(labels: Labels, selector: Labels) {
    forall pair | pair in selector :: Lookup(labels, pair.0) == Some(pair.1)
  }

  // ----- Taints and tolerations -----

  datatype TaintEffect = NoSchedule | PreferNoSchedule | NoExecute

  datatype Taint = Taint(key: string, value: string, effect: TaintEffect)

  datatype TolerationOperator = Equal | Exists

  datatype Toleration = Toleration(key: string, operator: TolerationOperator, value: string,
                                   effect: Option<TaintEffect>) {
    predicate Tolerates(taint: Taint) {
      && (effect.Some? ==> effect.value == taint.effect)
      && key == taint.key
      && (operator.Equal? ==> value == taint.value)
    }
  }

  // ----- Scheduling constraints -----

  datatype AffinityType = Required | Preferred(weight: int)

  datatype NodeAffinityTerm = NodeAffinityTerm(affinityType: AffinityType, matchLabels: Labels)

  datatype PodAffinityTerm = PodAffinityTerm(affinityType: AffinityType, selector: Labels, topologyKey: string,
                                             anti: bool)

  datatype WhenUnsatisfiable = DoNotSchedule | ScheduleAnyway

  datatype SpreadConstraint = SpreadConstraint(
    maxSkew: nat, topologyKey: string, whenUnsatisfiable: WhenUnsatisfiable, selector: Labels)

  datatype Constraints = Constraints(
    nodeAffinity: seq<NodeAffinityTerm>,
    podAffinity: seq<PodAffinityTerm>,
    tolerations: seq<Toleration>,
    topologySpread: seq<SpreadConstraint>)

  datatype PodDisruptionBudget = PodDisruptionBudget(selector: Labels, minAvailable: nat)

  // ----- Nodes and pods -----

  datatype Phase = Pending | Running | Succeeded | Failed | Terminating

  datatype ResizeStatus = Proposed | InProgress | Completed | Infeasible

  datatype Node = Node(
    instanceType: string,
    allocatable: Resources,
    used: Resources,
    pods: seq<PodId>,
    ready: bool,
    labels: Labels,
    taints: seq<Taint>,
    spot: bool,
    cordoned: bool,
    createdAt: nat,
    poolName: string,
    doNotDisrupt: bool)
  {
    /** Allocatable minus what is allocated, never below zero. */
    function Available(): Resources {
      allocatable.SaturatingSub(used)
    }

    predicate Schedulable() { ready && !cordoned }

    predicate Overcommitted() { !used.FitsIn(allocatable) }
  }

  datatype Pod = Pod(
    requests: Resources,
    phase: Phase,
    node: Option<NodeId>,
    constraints: Constraints,
    deletionCost: Option<int>,
    owner: OwnerId,
    priority: int,
    labels: Labels,
    doNotDisrupt: bool,
    isDaemonset: bool,
    resizeStatus: Option<ResizeStatus>)

  // ----- ReplicaSets -----

  datatype DeletionCostStrategy =
    | NoStrategy
    | PreferEmptyingNodes
    | RandomOrder
    | LargestFirst
    | UnallocatedVcpu
    | PodDeletionCostController

  datatype PodTemplate = PodTemplate(
    requests: Resources, priority: int, labels: Labels, constraints: Constraints, deletionCost: Option<int>)

  datatype ReplicaSet = ReplicaSet(
    owner: OwnerId, desiredReplicas: nat, template: PodTemplate, strategy: DeletionCostStrategy)
}
