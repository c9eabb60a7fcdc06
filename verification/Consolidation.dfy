/** The consolidation planner: plan, validate as a whole, validate again, execute. */
module Consolidation {
  import opened Types
  import opened Sequences
  import opened Arenas
  import opened ClusterModel
  import opened ClusterStates
  import opened Events
  import opened NodePools
  import opened Drain
  import opened Relocation

  datatype Action =
    | TerminateEmpty(node: NodeId)
    | DrainAndTerminate(node: NodeId, pods: seq<PodId>)
    | Replace(node: NodeId, pods: seq<PodId>, instanceType: string)

  datatype ConsolidationPolicy = WhenEmpty | WhenUnderutilized | WhenCostJustifiesDisruption

  datatype ConsolidationStrategy = SingleNode | MultiNode

  /** The configuration of the planner. A limit of zero candidates means no limit. */
  datatype PlannerSpec = PlannerSpec(
    pool: NodePool,
    policy: ConsolidationPolicy,
    threshold: real,
    strategy: ConsolidationStrategy,
    replaceEnabled: bool,
    consolidateAfter: nat,
    maxCandidates: nat,
    timeoutCandidates: nat)

  /** How many nodes a pass may disrupt, in all and for each reason. */
  datatype Budgets = Budgets(total: nat, empty: nat, underutilized: nat)

  // ----- Candidates -----

  predicate IsWorkload(m: Cluster, p: PodId) {
    m.HasPod(p) && !m.Pod(p).isDaemonset
  }

  predicate HasWorkload(m: Cluster, ids: seq<PodId>) {
    exists p | p in ids :: IsWorkload(m, p)
  }

  predicate MustNotDisrupt(m: Cluster, node: Node) {
    node.doNotDisrupt || exists p | p in node.pods :: IsWorkload(m, p) && m.Pod(p).doNotDisrupt
  }

  predicate OldEnough(m: Cluster, spec: PlannerSpec, node: Node) {
    m.time >= MinNat(node.createdAt + spec.consolidateAfter, U64_MAX)
  }

  predicate InPool(m: Cluster, spec: PlannerSpec, n: NodeId) {
    m.HasNode(n) && m.Node(n).Schedulable() && m.Node(n).poolName == spec.pool.name && OldEnough(m, spec, m.Node(n))
  }

  predicate IsEmptyCandidate(m: Cluster, spec: PlannerSpec, n: NodeId) {
    InPool(m, spec, n) && !m.Node(n).doNotDisrupt && !HasWorkload(m, m.Node(n).pods)
  }

  predicate IsCandidate(m: Cluster, spec: PlannerSpec, n: NodeId) {
    InPool(m, spec, n) && HasWorkload(m, m.Node(n).pods) && !MustNotDisrupt(m, m.Node(n))
  }

  function EmptyAmong(m: Cluster, spec: PlannerSpec, ids: seq<NodeId>): seq<NodeId> {
    if ids == [] then []
    else
      EmptyAmong(m, spec, ids[..|ids| - 1]) +
      (if IsEmptyCandidate(m, spec, ids[|ids| - 1]) then [ids[|ids| - 1]] else [])
  }

  function CandidatesAmong(m: Cluster, spec: PlannerSpec, ids: seq<NodeId>): seq<NodeId> {
    if ids == [] then []
    else
      CandidatesAmong(m, spec, ids[..|ids| - 1]) +
      (if IsCandidate(m, spec, ids[|ids| - 1]) then [ids[|ids| - 1]] else [])
  }

  // ----- Disruption scores -----

  /** Compared field by field; smaller means less disruption. */
  datatype Score = Score(spot: nat, disruption: int, pods: nat, createdAt: nat) {
    predicate AtMost(other: Score) {
      if spot != other.spot then spot < other.spot
      else if disruption != other.disruption then disruption < other.disruption
      else if pods != other.pods then pods < other.pods
      else createdAt <= other.createdAt
    }
  }

  datatype Tally = Tally(maxPriority: int, covered: nat, count: nat)

  predicate Covered(m: Cluster, pod: Pod) {
    exists pdb | pdb in m.pdbs :: Matches(pod.labels, pdb.selector)
  }

  function TallyOf(m: Cluster, ids: seq<PodId>): Tally {
    if ids == [] then Tally(0, 0, 0)
    else
      var t, p := TallyOf(m, ids[..|ids| - 1]), ids[|ids| - 1];
      if !IsWorkload(m, p) then t
      else
        var covered := if Covered(m, m.Pod(p)) then 1 else 0;
        Tally(Max(t.maxPriority, m.Pod(p).priority), t.covered + covered, t.count + 1)
  }

  function ScoreOf(m: Cluster, node: Node): Score {
    var t := TallyOf(m, node.pods);
    Score(if node.spot then 1 else 0, t.maxPriority + t.covered, t.count, node.createdAt)
  }

  function ScoreAt(m: Cluster, n: NodeId): Score {
    if m.HasNode(n) then ScoreOf(m, m.Node(n)) else Score(0, 0, 0, 0)
  }

  function ByScore(m: Cluster): (NodeId, NodeId) -> bool {
    (a: NodeId, b: NodeId) => ScoreAt(m, a).AtMost(ScoreAt(m, b))
  }

  function Truncated<T>(s: seq<T>, limit: nat): seq<T> {
    if limit > 0 && |s| > limit then s[..limit] else s
  }

  /** The nodes a pass tries, least disruptive first. */
  function Candidates(m: Cluster, spec: PlannerSpec): seq<NodeId> {
    Truncated(StableSort(CandidatesAmong(m, spec, Order(m.nodes)), ByScore(m)), spec.maxCandidates)
  }

  // ----- Planning -----

  function NodesOf(actions: seq<Action>): set<NodeId> {
    set a | a in actions :: a.node
  }

  ghost predicate CanReschedule(m: Cluster, n: NodeId, leaving: set<NodeId>) {
    m.HasNode(n) &&
    (m.Node(n).pods == [] || FirstFit(m, FreeSlots(m, leaving + {n}), Movable(m, m.Node(n).pods)).Fitted?)
  }

  /** How to vacate a node with these workload pods: the cost policy terminates
      a node without any directly. */
  function Vacate(n: NodeId, pods: seq<PodId>, direct: bool): Action {
    if direct && pods == [] then TerminateEmpty(n) else DrainAndTerminate(n, pods)
  }

  /** Add the node to the plan if its pods fit on the nodes that stay. */
  ghost function Try(m: Cluster, plan: seq<Action>, n: NodeId, direct: bool): seq<Action> {
    if CanReschedule(m, n, NodesOf(plan)) then plan + [Vacate(n, Movable(m, m.Node(n).pods), direct)] else plan
  }

  ghost function TryAll(m: Cluster, plan: seq<Action>, ids: seq<NodeId>, direct: bool): seq<Action> {
    if ids == [] then plan else Try(m, TryAll(m, plan, ids[..|ids| - 1], direct), ids[|ids| - 1], direct)
  }

  /** Stop after the first node added. */
  ghost function TryUntilOne(m: Cluster, plan: seq<Action>, ids: seq<NodeId>, direct: bool): seq<Action> {
    if ids == [] then plan
    else
      var p := TryUntilOne(m, plan, ids[..|ids| - 1], direct);
      if |p| > |plan| then p else Try(m, p, ids[|ids| - 1], direct)
  }

  ghost function Underutilized(m: Cluster, spec: PlannerSpec): seq<Action> {
    var ids, limit := Candidates(m, spec), spec.timeoutCandidates;
    match spec.strategy
    case SingleNode => TryUntilOne(m, [], ids, false)
    case MultiNode =>
      if limit > 0 && |ids| > limit then TryUntilOne(m, TryAll(m, [], ids[..limit], false), ids[limit..], false)
      else TryAll(m, [], ids, false)
  }

  // ----- Nodes whose savings justify the disruption -----

  function Above(ids: seq<NodeId>, ratios: NodeId -> real, threshold: real): seq<NodeId> {
    if ids == [] then []
    else
      var last := ids[|ids| - 1];
      Above(ids[..|ids| - 1], ratios, threshold) + (if ratios(last) >= threshold then [last] else [])
  }

  function ByRatio(ratios: NodeId -> real): (NodeId, NodeId) -> bool {
    (a: NodeId, b: NodeId) => ratios(a) >= ratios(b)
  }

  /** The candidates that reach the threshold, best savings first. */
  function Justified(m: Cluster, spec: PlannerSpec, ratios: NodeId -> real): seq<NodeId> {
    var found := Above(CandidatesAmong(m, spec, Order(m.nodes)), ratios, spec.threshold);
    Truncated(StableSort(found, ByRatio(ratios)), spec.maxCandidates)
  }

  ghost function CostJustified(m: Cluster, spec: PlannerSpec, ratios: NodeId -> real): seq<Action> {
    match spec.strategy
    case SingleNode => TryUntilOne(m, [], Justified(m, spec, ratios), true)
    case MultiNode => TryAll(m, [], Justified(m, spec, ratios), true)
  }

  // ----- Budgets -----

  datatype DisruptionReason = ForUnderutilized | ForEmpty | ForDrifted

  /** A budget of the version profile, with the percentage in force. */
  datatype BudgetEntry = BudgetEntry(percent: nat, reasons: seq<DisruptionReason>)

  function CapOf(b: BudgetEntry, totalNodes: nat): nat {
    Max(totalNodes * b.percent / 100, 1)
  }

  predicate AnyPerReason(entries: seq<BudgetEntry>) {
    exists b | b in entries :: b.reasons != []
  }

  predicate Concerns(b: BudgetEntry, reason: DisruptionReason) {
    b.reasons == [] || reason in b.reasons
  }

  /** What one budget makes of the cap for a reason: the largest budget counts
      if any names reasons, else the last one. */
  function Raise(cap: nat, b: BudgetEntry, reason: DisruptionReason, totalNodes: nat, perReason: bool): nat {
    if !Concerns(b, reason) then cap else if perReason then Max(cap, CapOf(b, totalNodes)) else CapOf(b, totalNodes)
  }

  function CapFor(
    entries: seq<BudgetEntry>, reason: DisruptionReason, totalNodes: nat, initial: nat, perReason: bool): nat
  {
    if entries == [] then initial
    else
      var last := |entries| - 1;
      Raise(CapFor(entries[..last], reason, totalNodes, initial, perReason), entries[last], reason, totalNodes,
            perReason)
  }

  /** How many nodes of the pool may be disrupted at once: at least one. */
  function DisruptionBudget(pool: NodePool, totalNodes: nat): (budget: nat)
    ensures budget >= 1
    ensures pool.maxDisruptedCount.Some? && totalNodes >= 1 ==> budget <= totalNodes
    ensures pool.maxDisruptedCount.None? && pool.maxDisruptedPct <= 100 && totalNodes >= 1 ==> budget <= totalNodes
  {
    if pool.maxDisruptedCount.Some? then Max(MinNat(pool.maxDisruptedCount.value, totalNodes), 1)
    else Max(totalNodes * pool.maxDisruptedPct / 100, 1)
  }

  /** The budgets of a pass; a handler without a version profile has no entries. */
  function BudgetsFor(pool: NodePool, entries: seq<BudgetEntry>, totalNodes: nat): Budgets {
    var total := DisruptionBudget(pool, totalNodes);
    var perReason := AnyPerReason(entries);
    var initial := if perReason then 0 else total;
    Budgets(total, CapFor(entries, ForEmpty, totalNodes, initial, perReason),
            CapFor(entries, ForUnderutilized, totalNodes, initial, perReason))
  }

  lemma {:induction false} LargestCap(
    entries: seq<BudgetEntry>, reason: DisruptionReason, totalNodes: nat, initial: nat)
    ensures var cap := CapFor(entries, reason, totalNodes, initial, true);
            && cap >= initial && (forall b :: b in entries && Concerns(b, reason) ==> CapOf(b, totalNodes) <= cap)
            && (cap == initial || exists b :: b in entries && Concerns(b, reason) && CapOf(b, totalNodes) == cap)
  {
    hide Concerns, CapOf;
    if entries != [] {
      var front, last := entries[..|entries| - 1], entries[|entries| - 1];
      assert entries == front + [last];
      LargestCap(front, reason, totalNodes, initial);
    }
  }

  /** Once some budget names reasons, a reason's cap is the largest budget that
      concerns it, and zero without any. Else the last budget caps every reason,
      and the pool's own budget does without any. */
  lemma CapsFacts(pool: NodePool, entries: seq<BudgetEntry>, totalNodes: nat, reason: DisruptionReason)
    requires !reason.ForDrifted?
    ensures var budgets := BudgetsFor(pool, entries, totalNodes);
            var cap := if reason.ForEmpty? then budgets.empty else budgets.underutilized;
            && budgets.total == DisruptionBudget(pool, totalNodes)
            && (AnyPerReason(entries) ==>
                  && (forall b :: b in entries && Concerns(b, reason) ==> CapOf(b, totalNodes) <= cap)
                  && (cap == 0 <==> forall b :: b in entries ==> !Concerns(b, reason))
                  && (cap > 0 ==> exists b :: b in entries && Concerns(b, reason) && CapOf(b, totalNodes) == cap))
            && (!AnyPerReason(entries) ==>
                  cap == if entries == [] then budgets.total else CapOf(entries[|entries| - 1], totalNodes))
  {
    if AnyPerReason(entries) {
      LargestCap(entries, reason, totalNodes, 0);
    } else if entries != [] {
      assert entries[|entries| - 1] in entries;
    }
  }

  function First<T>(s: seq<T>, k: int): seq<T> {
    if k <= 0 then [] else if k < |s| then s[..k] else s
  }

  function TerminationsOf(ids: seq<NodeId>): seq<Action> {
    seq(|ids|, i requires 0 <= i < |ids| => TerminateEmpty(ids[i]))
  }

  /** What the policy finds besides empty nodes. */
  ghost function Found(m: Cluster, spec: PlannerSpec, ratios: NodeId -> real): seq<Action> {
    match spec.policy
    case WhenEmpty => []
    case WhenUnderutilized => Underutilized(m, spec)
    case WhenCostJustifiesDisruption => CostJustified(m, spec, ratios)
  }

  predicate Replaces(spec: PlannerSpec) {
    spec.policy.WhenUnderutilized? && spec.replaceEnabled && spec.strategy.MultiNode?
  }

  /** All actions of a pass, within the budgets: empty nodes, then what the
      policy finds, then replacements. */
  ghost function Evaluate(
    m: Cluster, spec: PlannerSpec, budgets: Budgets, ratios: NodeId -> real, replacements: seq<Action>): seq<Action>
  {
    var empty := First(TerminationsOf(EmptyAmong(m, spec, Order(m.nodes))), Min(budgets.empty, budgets.total));
    var found := First(Found(m, spec, ratios), Min(budgets.underutilized, budgets.total - |empty|));
    var rest := Min(budgets.underutilized - |found|, budgets.total - |empty| - |found|);
    empty + found + (if Replaces(spec) then First(replacements, rest) else [])
  }

  // ----- Validation -----

  function Displaced(actions: seq<Action>): seq<PodId> {
    if actions == [] then []
    else
      var last := actions[|actions| - 1];
      Displaced(actions[..|actions| - 1]) + (if last.DrainAndTerminate? then last.pods else [])
  }

  ghost predicate AllFit(m: Cluster, actions: seq<Action>) {
    Displaced(actions) == [] || FirstFit(m, FreeSlots(m, NodesOf(actions)), Displaced(actions)).Fitted?
  }

  /** Drop the last action until the simulated placement succeeds. */
  ghost function Shrink(m: Cluster, actions: seq<Action>): seq<Action> {
    if actions == [] || AllFit(m, actions) then actions else Shrink(m, actions[..|actions| - 1])
  }

  ghost predicate StillValid(m: Cluster, a: Action, leaving: set<NodeId>) {
    && m.HasNode(a.node) && m.Node(a.node).Schedulable()
    && (a.TerminateEmpty? ==> !HasWorkload(m, m.Node(a.node).pods))
    && (a.DrainAndTerminate? ==> CanReschedule(m, a.node, leaving))
  }

  /** Keep the actions that are still valid besides those kept before. */
  ghost function Revalidate(m: Cluster, actions: seq<Action>): seq<Action> {
    if actions == [] then []
    else
      var kept, last := Revalidate(m, actions[..|actions| - 1]), actions[|actions| - 1];
      if StillValid(m, last, NodesOf(kept)) then kept + [last] else kept
  }

  /** The plan that is executed. */
  ghost function Plan(
    m: Cluster, spec: PlannerSpec, entries: seq<BudgetEntry>, ratios: NodeId -> real,
    replacements: seq<Action>): seq<Action>
  {
    Revalidate(m, Shrink(m, Evaluate(m, spec, BudgetsFor(spec.pool, entries, |m.nodes.live|), ratios, replacements)))
  }

  /** The simulation keeps the longest prefix of the actions that it accepts. */
  lemma {:induction false} ShrinkIsLongest(m: Cluster, actions: seq<Action>)
    ensures var kept := Shrink(m, actions);
            && kept <= actions && AllFit(m, kept)
            && (forall k :: |kept| < k <= |actions| ==> !AllFit(m, actions[..k]))
  {
    hide AllFit;
    if actions == [] {
      NothingFits(m);
    } else if AllFit(m, actions) {
      assert actions[..|actions|] == actions;
    } else {
      var front := actions[..|actions| - 1];
      ShrinkIsLongest(m, front);
      assert actions[..|actions|] == actions;
      assert forall k :: 0 <= k <= |front| ==> actions[..k] == front[..k];
    }
  }

  lemma NothingFits(m: Cluster)
    ensures AllFit(m, [])
  {
  }

  // ----- Plans drain distinct nodes completely -----

  /** The nodes that the actions drain, in order. */
  function DrainNodes(actions: seq<Action>): seq<NodeId> {
    if actions == [] then []
    else
      var last := actions[|actions| - 1];
      DrainNodes(actions[..|actions| - 1]) + (if last.DrainAndTerminate? then [last.node] else [])
  }

  /** No node is drained twice, and a drain moves all workload pods of its node. */
  ghost predicate WellPlanned(m: Cluster, actions: seq<Action>) {
    && NoDuplicates(DrainNodes(actions))
    && (forall a :: a in actions && a.DrainAndTerminate? ==>
        m.HasNode(a.node) && a.pods == Movable(m, m.Node(a.node).pods))
  }

  /** The workload pods that run on drained nodes. */
  function Evacuees(m: Cluster, actions: seq<Action>): set<PodId> {
    set p | p in m.pods.live && IsWorkload(m, p) && m.Pod(p).node.Some? && m.Pod(p).node.value in DrainNodes(actions)
  }

  lemma {:induction false} DrainNodesMembers(actions: seq<Action>)
    ensures forall n :: n in DrainNodes(actions) <==> exists a :: a in actions && a.DrainAndTerminate? && a.node == n
  {
    if actions != [] {
      var front, last := actions[..|actions| - 1], actions[|actions| - 1];
      DrainNodesMembers(front);
      assert actions == front + [last];
      assert last in actions;
      assert forall a :: a in front ==> a in actions;
    }
  }

  lemma {:induction false} DrainNodesConcat(a: seq<Action>, b: seq<Action>)
    ensures DrainNodes(a + b) == DrainNodes(a) + DrainNodes(b)
  {
    if b == [] {
      assert a + b == a;
    } else {
      assert (a + b)[..|a + b| - 1] == a + b[..|b| - 1];
      DrainNodesConcat(a, b[..|b| - 1]);
    }
  }

  lemma WellPlannedPrefix(m: Cluster, actions: seq<Action>, k: nat)
    requires WellPlanned(m, actions) && k <= |actions|
    ensures WellPlanned(m, actions[..k])
  {
    DrainNodesConcat(actions[..k], actions[k..]);
    assert actions == actions[..k] + actions[k..];
    hide DrainNodes;
    NoDuplicatesSplit(DrainNodes(actions[..k]), DrainNodes(actions[k..]));
  }

  lemma MovableOf(m: Cluster, n: NodeId)
    requires Inv(m) && m.HasNode(n)
    ensures var pods := Movable(m, m.Node(n).pods);
            NoDuplicates(pods) && forall p :: p in pods <==> m.RunsOn(p, n) && IsWorkload(m, p)
  {
    assert NodeAgrees(m, n);
    MovableFacts(m, m.Node(n).pods);
  }

  /** A well-formed plan displaces each evacuee once, and nobody else. */
  lemma {:induction false} DisplacedFacts(m: Cluster, actions: seq<Action>)
    requires Inv(m) && WellPlanned(m, actions)
    ensures NoDuplicates(Displaced(actions)) && Elements(Displaced(actions)) == Evacuees(m, actions)
  {
    hide Inv;
    if actions != [] {
      var k := |actions| - 1;
      var front, last := actions[..k], actions[k];
      WellPlannedPrefix(m, actions, k);
      DisplacedFacts(m, front);
      if last.DrainAndTerminate? {
        assert last in actions;
        MovableOf(m, last.node);
        assert last.node in [last.node];
        NoDuplicatesSplit(DrainNodes(front), [last.node]);
        hide WellPlanned, Movable, NoDuplicates, IsWorkload;
        OneMoreDrain(m, front, last);
        assert actions == front + [last];
      } else {
        assert DrainNodes(actions) == DrainNodes(front);
      }
    }
  }

  lemma OneMoreDrain(m: Cluster, front: seq<Action>, last: Action)
    requires last.DrainAndTerminate? && last.node !in DrainNodes(front)
    requires NoDuplicates(Displaced(front)) && Elements(Displaced(front)) == Evacuees(m, front)
    requires NoDuplicates(last.pods) && forall p :: p in last.pods <==> m.RunsOn(p, last.node) && IsWorkload(m, p)
    ensures NoDuplicates(Displaced(front) + last.pods)
    ensures Elements(Displaced(front) + last.pods) == Evacuees(m, front + [last])
  {
    var actions := front + [last];
    assert actions[..|front|] == front;
    assert DrainNodes(actions) == DrainNodes(front) + [last.node];
    forall p | p in Displaced(front)
      ensures p !in last.pods
    {
      assert p in Evacuees(m, front);
    }
    hide DrainNodes, Displaced, IsWorkload;
    NoDuplicatesConcat(Displaced(front), last.pods);
    forall p
      ensures p in Displaced(front) + last.pods <==> p in Evacuees(m, actions)
    {
      assert p in Displaced(front) <==> p in Evacuees(m, front);
    }
  }

  // ----- The plan has a joint witness -----

  lemma AcceptedRelocates(m: Cluster, actions: seq<Action>)
    requires Inv(m) && WellPlanned(m, actions) && AllFit(m, actions)
    ensures CanRelocate(m, NodesOf(actions), Evacuees(m, actions))
  {
    DisplacedFacts(m, actions);
    var pods := Displaced(actions);
    hide Inv, WellPlanned, Displaced, FirstFit, FreeSlots, Evacuees;
    if pods == [] {
      NobodyRelocates(m, NodesOf(actions));
    } else {
      FirstFitRelocates(m, NodesOf(actions), pods);
      LivePodsFacts(m, pods);
      EvacueesAreLive(m, actions);
      assert Elements(LivePods(m, pods)) == Evacuees(m, actions) by {
        assert forall p :: p in pods <==> p in Elements(pods);
      }
    }
  }

  lemma EvacueesAreLive(m: Cluster, actions: seq<Action>)
    ensures forall p :: p in Evacuees(m, actions) ==> m.HasPod(p)
  {
  }

  lemma NobodyRelocates(m: Cluster, leaving: set<NodeId>)
    ensures CanRelocate(m, leaving, Elements([]))
  {
    assert Relocates(m, leaving, Elements([]), []);
  }

  /** Dropping actions from a plan that can be relocated leaves one that can. */
  lemma SubplanRelocates(m: Cluster, actions: seq<Action>, kept: seq<Action>)
    requires CanRelocate(m, NodesOf(actions), Evacuees(m, actions)) && forall a :: a in kept ==> a in actions
    ensures CanRelocate(m, NodesOf(kept), Evacuees(m, kept))
  {
    DrainNodesMembers(actions);
    DrainNodesMembers(kept);
    hide DrainNodes, CanRelocate, IsWorkload;
    DroppingKeepsRelocation(m, NodesOf(actions), Evacuees(m, actions), NodesOf(kept), Evacuees(m, kept));
  }

  lemma {:induction false} RevalidateFacts(m: Cluster, actions: seq<Action>)
    ensures var plan := Revalidate(m, actions);
            forall a :: a in plan ==>
              && a in actions && m.HasNode(a.node) && m.Node(a.node).Schedulable()
              && (a.TerminateEmpty? ==> !HasWorkload(m, m.Node(a.node).pods))
  {
    hide CanReschedule, HasWorkload;
    if actions != [] {
      RevalidateFacts(m, actions[..|actions| - 1]);
    }
  }

  // ----- Evaluation yields well-formed plans within the budgets -----

  lemma {:induction false} CandidatesAmongFacts(m: Cluster, spec: PlannerSpec, ids: seq<NodeId>)
    requires NoDuplicates(ids)
    ensures NoDuplicates(CandidatesAmong(m, spec, ids))
    ensures forall n :: n in CandidatesAmong(m, spec, ids) <==> n in ids && IsCandidate(m, spec, n)
  {
    hide IsCandidate;
    if ids != [] {
      var front, last := ids[..|ids| - 1], ids[|ids| - 1];
      CandidatesAmongFacts(m, spec, front);
      assert ids == front + [last];
      assert last !in front;
    }
  }

  /** The candidates are distinct nodes that may be disrupted, and each scores
      at most as much as every candidate after it. */
  lemma CandidatesFacts(m: Cluster, spec: PlannerSpec)
    requires Inv(m)
    ensures var ids := Candidates(m, spec);
            && NoDuplicates(ids) && (forall n :: n in ids ==> IsCandidate(m, spec, n))
            && SortedBy(ids, ByScore(m)) && (spec.maxCandidates > 0 ==> |ids| <= spec.maxCandidates)
  {
    assert Consistent(m.nodes);
    OrderFacts(m.nodes);
    var found := CandidatesAmong(m, spec, Order(m.nodes));
    CandidatesAmongFacts(m, spec, Order(m.nodes));
    ScoresAreOrdered(m);
    StableSortSorts(found, ByScore(m));
    var sorted := StableSort(found, ByScore(m));
    PermutationFacts(sorted, found);
    hide Inv, IsCandidate, ScoreAt, StableSort;
  }

  lemma ScoresAreOrdered(m: Cluster)
    ensures TotalPreorder(ByScore(m))
  {
    hide ScoreAt;
  }

  ghost predicate DrainsOnly(actions: seq<Action>) {
    forall a :: a in actions ==> a.DrainAndTerminate?
  }

  lemma TryFacts(m: Cluster, plan: seq<Action>, n: NodeId, direct: bool)
    requires WellPlanned(m, plan) && n !in NodesOf(plan)
    ensures var p := Try(m, plan, n, direct);
            && WellPlanned(m, p) && NodesOf(p) <= NodesOf(plan) + {n} && |plan| <= |p| <= |plan| + 1
            && (DrainsOnly(plan) && !direct ==> DrainsOnly(p))
  {
    DrainNodesMembers(plan);
    hide FirstFit, Movable;
    if CanReschedule(m, n, NodesOf(plan)) {
      var a := Vacate(n, Movable(m, m.Node(n).pods), direct);
      assert (plan + [a])[..|plan|] == plan;
      assert DrainNodes(plan + [a]) == DrainNodes(plan) + (if a.DrainAndTerminate? then [n] else []);
      hide DrainNodes, CanReschedule;
      NoDuplicatesConcat(DrainNodes(plan), [n]);
    }
  }

  lemma {:induction false} TryAllFacts(m: Cluster, plan: seq<Action>, ids: seq<NodeId>, direct: bool)
    requires WellPlanned(m, plan) && NoDuplicates(ids) && forall n :: n in ids ==> n !in NodesOf(plan)
    ensures var p := TryAll(m, plan, ids, direct);
            && WellPlanned(m, p) && NodesOf(p) <= NodesOf(plan) + Elements(ids)
            && (DrainsOnly(plan) && !direct ==> DrainsOnly(p))
  {
    hide WellPlanned, Try, DrainsOnly;
    if ids != [] {
      var front, last := ids[..|ids| - 1], ids[|ids| - 1];
      assert ids == front + [last];
      assert last !in front;
      TryAllFacts(m, plan, front, direct);
      assert last in ids;
      TryFacts(m, TryAll(m, plan, front, direct), last, direct);
    }
  }

  lemma {:induction false} TryUntilOneFacts(m: Cluster, plan: seq<Action>, ids: seq<NodeId>, direct: bool)
    requires WellPlanned(m, plan) && NoDuplicates(ids) && forall n :: n in ids ==> n !in NodesOf(plan)
    ensures var p := TryUntilOne(m, plan, ids, direct);
            && WellPlanned(m, p) && NodesOf(p) <= NodesOf(plan) + Elements(ids)
            && (DrainsOnly(plan) && !direct ==> DrainsOnly(p)) && |plan| <= |p| <= |plan| + 1
  {
    hide WellPlanned, Try, DrainsOnly;
    if ids != [] {
      var front, last := ids[..|ids| - 1], ids[|ids| - 1];
      assert ids == front + [last];
      assert last !in front;
      TryUntilOneFacts(m, plan, front, direct);
      var p := TryUntilOne(m, plan, front, direct);
      if |p| == |plan| {
        assert last in ids;
        TryFacts(m, p, last, direct);
      }
    }
  }

  lemma UnderutilizedFacts(m: Cluster, spec: PlannerSpec)
    requires Inv(m)
    ensures WellPlanned(m, Underutilized(m, spec)) && DrainsOnly(Underutilized(m, spec))
    ensures spec.strategy.SingleNode? ==> |Underutilized(m, spec)| <= 1
  {
    CandidatesFacts(m, spec);
    var ids, limit := Candidates(m, spec), spec.timeoutCandidates;
    hide Inv, Candidates, IsCandidate;
    TryUntilOneFacts(m, [], ids, false);
    TryAllFacts(m, [], ids, false);
    if limit > 0 && |ids| > limit {
      hide WellPlanned, DrainsOnly;
      assert WellPlanned(m, []) && DrainsOnly([]) by {
        NothingPlanned(m);
      }
      var plan := TryAll(m, [], ids[..limit], false);
      TryAllFacts(m, [], ids[..limit], false);
      forall n | n in ids[limit..]
        ensures n !in NodesOf(plan)
      {
        assert n !in ids[..limit];
      }
      TryUntilOneFacts(m, plan, ids[limit..], false);
    }
  }

  lemma {:induction false} AboveFacts(ids: seq<NodeId>, ratios: NodeId -> real, threshold: real)
    ensures forall n :: n in Above(ids, ratios, threshold) <==> n in ids && ratios(n) >= threshold
    ensures NoDuplicates(ids) ==> NoDuplicates(Above(ids, ratios, threshold))
  {
    if ids != [] {
      var front, last := ids[..|ids| - 1], ids[|ids| - 1];
      AboveFacts(front, ratios, threshold);
      assert ids == front + [last];
      assert NoDuplicates(ids) ==> last !in front;
    }
  }

  lemma TruncatedFacts<T>(s: seq<T>, limit: nat, le: (T, T) -> bool)
    requires NoDuplicates(s) && SortedBy(s, le)
    ensures var t := Truncated(s, limit);
            && NoDuplicates(t) && SortedBy(t, le) && (forall x :: x in t ==> x in s) && (limit > 0 ==> |t| <= limit)
  {
  }

  lemma RatiosAreOrdered(ratios: NodeId -> real)
    ensures TotalPreorder(ByRatio(ratios))
  {
  }

  /** The cost policy tries distinct disruptable nodes that reach the threshold,
      and each saves at least as much as every node after it. */
  lemma JustifiedFacts(m: Cluster, spec: PlannerSpec, ratios: NodeId -> real)
    requires Inv(m)
    ensures var ids := Justified(m, spec, ratios);
            && NoDuplicates(ids) && (forall n :: n in ids ==> IsCandidate(m, spec, n) && ratios(n) >= spec.threshold)
            && SortedBy(ids, ByRatio(ratios)) && (spec.maxCandidates > 0 ==> |ids| <= spec.maxCandidates)
  {
    assert Consistent(m.nodes);
    hide Inv, IsCandidate, StableSort, Above, Order, CandidatesAmong, NoDuplicates, SortedBy, ByRatio, Truncated,
         Consistent;
    OrderFacts(m.nodes);
    var all := CandidatesAmong(m, spec, Order(m.nodes));
    CandidatesAmongFacts(m, spec, Order(m.nodes));
    AboveFacts(all, ratios, spec.threshold);
    var found := Above(all, ratios, spec.threshold);
    RatiosAreOrdered(ratios);
    StableSortSorts(found, ByRatio(ratios));
    var sorted := StableSort(found, ByRatio(ratios));
    PermutationFacts(sorted, found);
    TruncatedFacts(sorted, spec.maxCandidates, ByRatio(ratios));
  }

  /** The cost policy, too, plans complete drains of distinct nodes; the
      single-node strategy plans at most one. */
  lemma CostJustifiedFacts(m: Cluster, spec: PlannerSpec, ratios: NodeId -> real)
    requires Inv(m)
    ensures WellPlanned(m, CostJustified(m, spec, ratios))
    ensures spec.strategy.SingleNode? ==> |CostJustified(m, spec, ratios)| <= 1
    ensures NodesOf(CostJustified(m, spec, ratios)) <= Elements(Justified(m, spec, ratios))
  {
    JustifiedFacts(m, spec, ratios);
    var ids := Justified(m, spec, ratios);
    hide Inv, Justified, IsCandidate;
    NothingPlanned(m);
    TryUntilOneFacts(m, [], ids, true);
    TryAllFacts(m, [], ids, true);
  }

  lemma NothingPlanned(m: Cluster)
    ensures WellPlanned(m, []) && DrainsOnly([])
  {
  }

  lemma {:induction false} NoDrains(actions: seq<Action>)
    requires forall a :: a in actions ==> !a.DrainAndTerminate?
    ensures DrainNodes(actions) == []
  {
    if actions != [] {
      assert actions[|actions| - 1] in actions;
      NoDrains(actions[..|actions| - 1]);
    }
  }

  lemma WellPlannedBetween(m: Cluster, before: seq<Action>, drains: seq<Action>, after: seq<Action>)
    requires WellPlanned(m, drains)
    requires forall a :: a in before || a in after ==> !a.DrainAndTerminate?
    ensures WellPlanned(m, before + drains + after)
  {
    NoDrains(before);
    NoDrains(after);
    DrainNodesConcat(before, drains);
    DrainNodesConcat(before + drains, after);
    hide DrainNodes, Movable;
  }

  lemma {:induction false} DrainsAtMost(actions: seq<Action>)
    ensures |DrainNodes(actions)| <= |actions|
  {
    if actions != [] {
      DrainsAtMost(actions[..|actions| - 1]);
    }
  }

  lemma FoundFacts(m: Cluster, spec: PlannerSpec, ratios: NodeId -> real, k: int)
    requires Inv(m)
    ensures WellPlanned(m, First(Found(m, spec, ratios), k))
  {
    hide Inv, Underutilized, CostJustified;
    var found := Found(m, spec, ratios);
    assert WellPlanned(m, found) by {
      NothingPlanned(m);
      UnderutilizedFacts(m, spec);
      CostJustifiedFacts(m, spec, ratios);
    }
    NothingPlanned(m);
    if 0 < k < |found| {
      WellPlannedPrefix(m, found, k);
    }
  }

  lemma FirstFacts<T>(s: seq<T>, k: int)
    ensures |First(s, k)| <= Max(k, 0) && forall x :: x in First(s, k) ==> x in s
  {
  }

  /** A pass plans well-formed drains, and stays within its budgets. */
  lemma EvaluateFacts(
    m: Cluster, spec: PlannerSpec, budgets: Budgets, ratios: NodeId -> real, replacements: seq<Action>)
    requires Inv(m) && forall a :: a in replacements ==> a.Replace?
    ensures var actions := Evaluate(m, spec, budgets, ratios, replacements);
            WellPlanned(m, actions) && |actions| <= budgets.total && |DrainNodes(actions)| <= budgets.underutilized
  {
    hide Inv, Found, EmptyAmong, WellPlanned, TerminationsOf, First, DrainNodes, Order;
    var all := TerminationsOf(EmptyAmong(m, spec, Order(m.nodes)));
    TerminationsOnly(EmptyAmong(m, spec, Order(m.nodes)));
    var empty := First(all, Min(budgets.empty, budgets.total));
    FirstFacts(all, Min(budgets.empty, budgets.total));
    var limit := Min(budgets.underutilized, budgets.total - |empty|);
    var found := First(Found(m, spec, ratios), limit);
    FirstFacts(Found(m, spec, ratios), limit);
    FoundFacts(m, spec, ratios, limit);
    var rest := Min(budgets.underutilized - |found|, budgets.total - |empty| - |found|);
    FirstFacts(replacements, rest);
    var after := if Replaces(spec) then First(replacements, rest) else [];
    WellPlannedBetween(m, empty, found, after);
    DrainsBetween(empty, found, after);
  }

  lemma DrainsBetween(before: seq<Action>, drains: seq<Action>, after: seq<Action>)
    requires forall a :: a in before || a in after ==> !a.DrainAndTerminate?
    ensures |DrainNodes(before + drains + after)| <= |drains|
  {
    NoDrains(before);
    NoDrains(after);
    DrainNodesConcat(before, drains);
    DrainNodesConcat(before + drains, after);
    DrainsAtMost(drains);
  }

  lemma TerminationsOnly(ids: seq<NodeId>)
    ensures forall a :: a in TerminationsOf(ids) ==> a.TerminateEmpty?
  {
  }

  /** What every executed plan guarantees. */
  ghost predicate PlanIsSound(m: Cluster, plan: seq<Action>, limit: nat) {
    && |plan| <= limit
    && CanRelocate(m, NodesOf(plan), Evacuees(m, plan))
    && (forall a :: a in plan ==> m.HasNode(a.node) && m.Node(a.node).Schedulable())
    && (forall a :: a in plan && a.TerminateEmpty? ==> !HasWorkload(m, m.Node(a.node).pods))
    && (forall a :: a in plan && a.DrainAndTerminate? ==> a.pods == Movable(m, m.Node(a.node).pods))
  }

  lemma {:induction false} RevalidateShrinks(m: Cluster, actions: seq<Action>)
    ensures |Revalidate(m, actions)| <= |actions|
  {
    hide StillValid;
    if actions != [] {
      RevalidateShrinks(m, actions[..|actions| - 1]);
    }
  }

  /** Whatever plan goes into the shrink loop and the second validation, what
      comes out has a joint witness: all workload pods of its drained nodes fit
      together on ready, uncordoned nodes outside the plan, passing the filters
      there. Dropping any actions keeps that true. */
  lemma ValidatedHasWitness(m: Cluster, actions: seq<Action>)
    requires Inv(m) && WellPlanned(m, actions)
    ensures var plan := Revalidate(m, Shrink(m, actions));
            && PlanIsSound(m, plan, |actions|)
            && (forall kept: seq<Action> :: (forall a :: a in kept ==> a in plan) ==>
                  CanRelocate(m, NodesOf(kept), Evacuees(m, kept)))
  {
    ShrinkIsLongest(m, actions);
    var shrunk := Shrink(m, actions);
    assert shrunk == actions[..|shrunk|];
    WellPlannedPrefix(m, actions, |shrunk|);
    hide Inv, Shrink, AllFit, HasWorkload, CanRelocate, NodesOf, Evacuees, Revalidate;
    AcceptedRelocates(m, shrunk);
    RevalidateFacts(m, shrunk);
    RevalidateShrinks(m, shrunk);
    var plan := Revalidate(m, shrunk);
    SubplanRelocates(m, shrunk, plan);
    forall kept: seq<Action> | forall a :: a in kept ==> a in plan
      ensures CanRelocate(m, NodesOf(kept), Evacuees(m, kept))
    {
      SubplanRelocates(m, plan, kept);
    }
  }

  /** Under every policy the plan that the handler executes has a joint witness,
      and disrupts no more nodes than the pool's budget allows. */
  lemma PlanHasWitness(
    m: Cluster, spec: PlannerSpec, entries: seq<BudgetEntry>, ratios: NodeId -> real, replacements: seq<Action>)
    requires Inv(m) && forall a :: a in replacements ==> a.Replace?
    ensures var plan := Plan(m, spec, entries, ratios, replacements);
            && PlanIsSound(m, plan, DisruptionBudget(spec.pool, |m.nodes.live|))
            && (forall kept: seq<Action> :: (forall a :: a in kept ==> a in plan) ==>
                  CanRelocate(m, NodesOf(kept), Evacuees(m, kept)))
  {
    hide Inv, Evaluate, Shrink, CanRelocate, NodesOf, Evacuees, Revalidate, WellPlanned, HasWorkload, CapFor;
    var budgets := BudgetsFor(spec.pool, entries, |m.nodes.live|);
    EvaluateFacts(m, spec, budgets, ratios, replacements);
    ValidatedHasWitness(m, Evaluate(m, spec, budgets, ratios, replacements));
  }

  // ----- Executing the plan -----

  const STABILIZATION: nat := 15_000_000_000

  function CordonAll(m: Cluster, actions: seq<Action>): Cluster {
    if actions == [] then m else Cordon(CordonAll(m, actions[..|actions| - 1]), actions[|actions| - 1].node)
  }

  function ActionEvents(pool: NodePool, a: Action, at: nat): seq<ScheduledEvent> {
    match a
    case TerminateEmpty(n) => [At(at + 1, NodeCordoned(n)), At(at + 2, NodeTerminated(n))]
    case DrainAndTerminate(n, _) =>
      [At(at + 1, NodeCordoned(n)), At(at + 2, NodeDrained(n)), At(at + 3, NodeTerminated(n))]
    case Replace(n, _, instanceType) =>
      [At(at + 1, NodeCordoned(n)), At(at + 2, NodeDrained(n)), At(at + 3, NodeTerminated(n)),
       At(at + 4, NodeLaunching(NodeSpec(instanceType, pool.labels, pool.taints, pool.name, pool.doNotDisrupt)))]
  }

  function PlanEvents(pool: NodePool, actions: seq<Action>, time: nat): seq<ScheduledEvent> {
    if actions == [] then []
    else
      var k := |actions| - 1;
      PlanEvents(pool, actions[..k], time) + ActionEvents(pool, actions[k], time + k * STABILIZATION)
  }

  ghost predicate StrictlyWithin(events: seq<ScheduledEvent>, from: nat, to: nat) {
    && (forall e :: e in events ==> from < e.time < to)
    && (forall i, j :: 0 <= i < j < |events| ==> events[i].time < events[j].time)
  }

  lemma ActionEventsInOrder(pool: NodePool, a: Action, at: nat)
    ensures StrictlyWithin(ActionEvents(pool, a, at), at, at + STABILIZATION)
  {
  }

  lemma OneAfterTheOther(a: seq<ScheduledEvent>, b: seq<ScheduledEvent>, from: nat, middle: nat, to: nat)
    requires from <= middle <= to && StrictlyWithin(a, from, middle) && StrictlyWithin(b, middle, to)
    ensures StrictlyWithin(a + b, from, to)
  {
    forall i, j | 0 <= i < j < |a + b|
      ensures (a + b)[i].time < (a + b)[j].time
    {
      if i < |a| <= j {
        assert a[i] in a && b[j - |a|] in b;
      }
    }
  }

  /** The events of a plan fire strictly one after the other: a node is drained
      and terminated before the next one is touched. */
  lemma {:induction false} PlanEventsInOrder(pool: NodePool, actions: seq<Action>, time: nat)
    ensures StrictlyWithin(PlanEvents(pool, actions, time), time, time + |actions| * STABILIZATION)
  {
    hide StrictlyWithin, ActionEvents;
    if actions == [] {
      assert StrictlyWithin([], time, time) by { NoEvents(time); }
    } else {
      var k := |actions| - 1;
      PlanEventsInOrder(pool, actions[..k], time);
      var middle := time + k * STABILIZATION;
      ActionEventsInOrder(pool, actions[k], middle);
      OneAfterTheOther(PlanEvents(pool, actions[..k], time), ActionEvents(pool, actions[k], middle), time, middle,
                       middle + STABILIZATION);
    }
  }

  lemma NoEvents(time: nat)
    ensures StrictlyWithin([], time, time)
  {
  }

  /** Execution cordons the nodes of the plan and changes nothing else. */
  lemma {:induction false} CordonAllFacts(m: Cluster, actions: seq<Action>)
    requires Inv(m)
    ensures var m' := CordonAll(m, actions);
            && Inv(m') && m'.pods == m.pods && m'.pending == m.pending
            && (forall n :: m'.HasNode(n) <==> m.HasNode(n))
            && (forall n :: m.HasNode(n) ==>
                  m'.Node(n) == if n in NodesOf(actions) then m.Node(n).(cordoned := true) else m.Node(n))
  {
    hide Inv;
    if actions != [] {
      var front, last := actions[..|actions| - 1], actions[|actions| - 1];
      CordonAllFacts(m, front);
      CordonInv(CordonAll(m, front), last.node);
      assert actions == front + [last];
      assert NodesOf(actions) == NodesOf(front) + {last.node};
    }
  }

  // ----- Finding candidates -----

  method CheckWorkload(state: ClusterState, ids: seq<PodId>) returns (found: bool)
    requires state.Valid()
    ensures found == HasWorkload(state.Model(), ids)
  {
    hide Arena.Valid;
    ghost var m := state.Model();
    for i := 0 to |ids|
      invariant state.Model() == m
      invariant forall k :: 0 <= k < i ==> !IsWorkload(m, ids[k])
    {
      var pod := state.pods.Find(ids[i]);
      if pod.Some? && !pod.value.isDaemonset {
        assert ids[i] in ids;
        return true;
      }
    }
    found := false;
  }

  method CheckMustNotDisrupt(state: ClusterState, node: Node) returns (found: bool)
    requires state.Valid()
    ensures found == MustNotDisrupt(state.Model(), node)
  {
    hide Arena.Valid;
    if node.doNotDisrupt {
      return true;
    }
    ghost var m := state.Model();
    for i := 0 to |node.pods|
      invariant state.Model() == m
      invariant forall k :: 0 <= k < i ==> !(IsWorkload(m, node.pods[k]) && m.Pod(node.pods[k]).doNotDisrupt)
    {
      var pod := state.pods.Find(node.pods[i]);
      if pod.Some? && pod.value.doNotDisrupt && !pod.value.isDaemonset {
        assert node.pods[i] in node.pods;
        return true;
      }
    }
    found := false;
  }

  method FindEmptyNodes(state: ClusterState, spec: PlannerSpec) returns (found: seq<NodeId>)
    requires state.Valid()
    ensures found == EmptyAmong(state.Model(), spec, Order(state.Model().nodes))
  {
    hide Arena.Valid, HasWorkload;
    ghost var m := state.Model();
    found := [];
    var ids := state.nodes.Handles();
    for i := 0 to |ids|
      invariant state.Model() == m
      invariant found == EmptyAmong(m, spec, ids[..i])
    {
      assert ids[..i + 1][..i] == ids[..i];
      var node := state.nodes.Find(ids[i]);
      if node.Some? && node.value.Schedulable() && !node.value.doNotDisrupt && node.value.poolName == spec.pool.name
         && state.time >= MinNat(node.value.createdAt + spec.consolidateAfter, U64_MAX) {
        var workload := CheckWorkload(state, node.value.pods);
        if !workload {
          found := found + [ids[i]];
        }
      }
    }
    assert ids[..|ids|] == ids;
  }

  method FindCandidates(state: ClusterState, spec: PlannerSpec) returns (found: seq<NodeId>)
    requires state.Valid()
    ensures found == CandidatesAmong(state.Model(), spec, Order(state.Model().nodes))
  {
    hide Arena.Valid, HasWorkload, MustNotDisrupt;
    ghost var m := state.Model();
    found := [];
    var ids := state.nodes.Handles();
    for i := 0 to |ids|
      invariant state.Model() == m
      invariant found == CandidatesAmong(m, spec, ids[..i])
    {
      assert ids[..i + 1][..i] == ids[..i];
      var node := state.nodes.Find(ids[i]);
      if node.Some? && node.value.Schedulable() && node.value.poolName == spec.pool.name
         && state.time >= MinNat(node.value.createdAt + spec.consolidateAfter, U64_MAX) {
        var workload := CheckWorkload(state, node.value.pods);
        var untouchable := CheckMustNotDisrupt(state, node.value);
        if workload && !untouchable {
          found := found + [ids[i]];
        }
      }
    }
    assert ids[..|ids|] == ids;
  }

  method ComputeScore(state: ClusterState, node: Node) returns (score: Score)
    requires state.Valid()
    ensures score == ScoreOf(state.Model(), node)
  {
    hide Arena.Valid;
    ghost var m := state.Model();
    var ids := node.pods;
    var maxPriority, covered, count := 0, 0, 0;
    for i := 0 to |ids|
      invariant state.Model() == m
      invariant TallyOf(m, ids[..i]) == Tally(maxPriority, covered, count)
    {
      assert ids[..i + 1][..i] == ids[..i];
      var pod := state.pods.Find(ids[i]);
      if pod.Some? && !pod.value.isDaemonset {
        count := count + 1;
        if pod.value.priority > maxPriority {
          maxPriority := pod.value.priority;
        }
        if exists pdb | pdb in state.pdbs :: Matches(pod.value.labels, pdb.selector) {
          covered := covered + 1;
        }
      }
    }
    assert ids[..|ids|] == ids;
    score := Score(if node.spot then 1 else 0, maxPriority + covered, count, node.createdAt);
  }

  method SortCandidates(state: ClusterState, ids: seq<NodeId>) returns (sorted: seq<NodeId>)
    requires state.Valid()
    ensures sorted == StableSort(ids, ByScore(state.Model()))
  {
    hide Arena.Valid, ScoreOf, StableSort;
    ghost var m := state.Model();
    var scores: map<NodeId, Score> := map[];
    for i := 0 to |ids|
      invariant state.Model() == m
      invariant forall k :: 0 <= k < i ==> ids[k] in scores && scores[ids[k]] == ScoreAt(m, ids[k])
    {
      var node := state.nodes.Find(ids[i]);
      var score := Score(0, 0, 0, 0);
      if node.Some? {
        score := ComputeScore(state, node.value);
      }
      scores := scores[ids[i] := score];
    }
    var le := (a: NodeId, b: NodeId) => a in scores && b in scores && scores[a].AtMost(scores[b]);
    StableSortSame(ids, le, ByScore(m));
    sorted := StableSort(ids, le);
  }

  // ----- Building and validating the plan -----

  /** The workload pods of the node, if they fit on the nodes that stay. */
  method PodsCanReschedule(state: ClusterState, n: NodeId, leaving: set<NodeId>) returns (pods: Option<seq<PodId>>)
    requires state.Valid() && Inv(state.Model())
    ensures pods.Some? == CanReschedule(state.Model(), n, leaving)
    ensures pods.Some? ==> pods.value == Movable(state.Model(), state.Model().Node(n).pods)
  {
    hide Arena.Valid, Inv, FirstFit, FreeSlots;
    var node := state.nodes.Find(n);
    if node.None? {
      return None;
    }
    if node.value.pods == [] {
      return Some([]);
    }
    var _, movable := Collect(state, node.value.pods);
    var slots := CollectSlots(state, leaving + {n});
    var fits := PlaceAll(state, slots, movable);
    pods := if fits then Some(movable) else None;
  }

  method TryNodes(state: ClusterState, plan: seq<Action>, ids: seq<NodeId>, direct: bool)
    returns (extended: seq<Action>)
    requires state.Valid() && Inv(state.Model())
    ensures extended == TryAll(state.Model(), plan, ids, direct)
  {
    hide Arena.Valid, Inv, CanReschedule;
    ghost var m := state.Model();
    extended := plan;
    for i := 0 to |ids|
      invariant state.Model() == m
      invariant extended == TryAll(m, plan, ids[..i], direct)
    {
      assert ids[..i + 1][..i] == ids[..i];
      var pods := PodsCanReschedule(state, ids[i], NodesOf(extended));
      if pods.Some? {
        extended := extended + [Vacate(ids[i], pods.value, direct)];
      }
    }
    assert ids[..|ids|] == ids;
  }

  method TryUntilFound(state: ClusterState, plan: seq<Action>, ids: seq<NodeId>, direct: bool)
    returns (extended: seq<Action>)
    requires state.Valid() && Inv(state.Model())
    ensures extended == TryUntilOne(state.Model(), plan, ids, direct)
  {
    hide Arena.Valid, Inv, CanReschedule;
    ghost var m := state.Model();
    extended := plan;
    for i := 0 to |ids|
      invariant state.Model() == m
      invariant extended == plan == TryUntilOne(m, plan, ids[..i], direct)
    {
      assert ids[..i + 1][..i] == ids[..i];
      var pods := PodsCanReschedule(state, ids[i], NodesOf(extended));
      if pods.Some? {
        extended := extended + [Vacate(ids[i], pods.value, direct)];
        FoundSticks(m, plan, ids, i + 1, direct);
        return;
      }
    }
    assert ids[..|ids|] == ids;
  }

  lemma {:induction false} FoundSticks(m: Cluster, plan: seq<Action>, ids: seq<NodeId>, k: nat, direct: bool)
    requires k <= |ids| && |TryUntilOne(m, plan, ids[..k], direct)| > |plan|
    ensures TryUntilOne(m, plan, ids, direct) == TryUntilOne(m, plan, ids[..k], direct)
  {
    if k < |ids| {
      var front := ids[..|ids| - 1];
      assert front[..k] == ids[..k];
      FoundSticks(m, plan, front, k, direct);
    } else {
      assert ids[..k] == ids;
    }
  }

  method FindUnderutilized(state: ClusterState, spec: PlannerSpec) returns (plan: seq<Action>)
    requires state.Valid() && Inv(state.Model())
    ensures plan == Underutilized(state.Model(), spec)
  {
    hide Arena.Valid, Inv, CandidatesAmong, StableSort, TryAll, TryUntilOne;
    var found := FindCandidates(state, spec);
    var sorted := SortCandidates(state, found);
    var ids := Truncated(sorted, spec.maxCandidates);
    if spec.strategy.SingleNode? {
      plan := TryUntilFound(state, [], ids, false);
    } else if spec.timeoutCandidates > 0 && |ids| > spec.timeoutCandidates {
      plan := TryNodes(state, [], ids[..spec.timeoutCandidates], false);
      plan := TryUntilFound(state, plan, ids[spec.timeoutCandidates..], false);
    } else {
      plan := TryNodes(state, [], ids, false);
    }
  }

  method ReachThreshold(ids: seq<NodeId>, ratios: NodeId -> real, threshold: real) returns (found: seq<NodeId>)
    ensures found == Above(ids, ratios, threshold)
  {
    found := [];
    for i := 0 to |ids|
      invariant found == Above(ids[..i], ratios, threshold)
    {
      assert ids[..i + 1][..i] == ids[..i];
      if ratios(ids[i]) >= threshold {
        found := found + [ids[i]];
      }
    }
    assert ids[..|ids|] == ids;
  }

  method FindCostJustified(state: ClusterState, spec: PlannerSpec, ratios: NodeId -> real) returns (plan: seq<Action>)
    requires state.Valid() && Inv(state.Model())
    ensures plan == CostJustified(state.Model(), spec, ratios)
  {
    hide Arena.Valid, Inv, CandidatesAmong, StableSort, TryAll, TryUntilOne, Above;
    var candidates := FindCandidates(state, spec);
    var found := ReachThreshold(candidates, ratios, spec.threshold);
    var ids := Truncated(StableSort(found, ByRatio(ratios)), spec.maxCandidates);
    if spec.strategy.SingleNode? {
      plan := TryUntilFound(state, [], ids, true);
    } else {
      plan := TryNodes(state, [], ids, true);
    }
  }

  /** Resolve the budgets of the version profile. */
  method ResolveBudgets(pool: NodePool, entries: seq<BudgetEntry>, totalNodes: nat) returns (budgets: Budgets)
    ensures budgets == BudgetsFor(pool, entries, totalNodes)
  {
    hide CapOf, DisruptionBudget;
    var total := DisruptionBudget(pool, totalNodes);
    var perReason := AnyPerReason(entries);
    var initial := if perReason then 0 else total;
    var empty, underutilized := initial, initial;
    for i := 0 to |entries|
      invariant empty == CapFor(entries[..i], ForEmpty, totalNodes, initial, perReason)
      invariant underutilized == CapFor(entries[..i], ForUnderutilized, totalNodes, initial, perReason)
    {
      assert entries[..i + 1][..i] == entries[..i];
      var b, cap := entries[i], CapOf(entries[i], totalNodes);
      if b.reasons == [] {
        empty := if perReason then Max(empty, cap) else cap;
        underutilized := if perReason then Max(underutilized, cap) else cap;
      } else {
        assert perReason;
        empty := if ForEmpty in b.reasons then Max(empty, cap) else empty;
        underutilized := if ForUnderutilized in b.reasons then Max(underutilized, cap) else underutilized;
      }
    }
    assert entries[..|entries|] == entries;
    budgets := Budgets(total, empty, underutilized);
  }

  method EvaluateActions(
    state: ClusterState, spec: PlannerSpec, budgets: Budgets, ratios: NodeId -> real, replacements: seq<Action>)
    returns (actions: seq<Action>)
    requires state.Valid() && Inv(state.Model())
    ensures actions == Evaluate(state.Model(), spec, budgets, ratios, replacements)
  {
    hide Arena.Valid, Inv, Underutilized, CostJustified, EmptyAmong;
    var emptyNodes := FindEmptyNodes(state, spec);
    var empty := First(TerminationsOf(emptyNodes), Min(budgets.empty, budgets.total));
    var found: seq<Action> := [];
    match spec.policy {
      case WhenEmpty =>
      case WhenUnderutilized => found := FindUnderutilized(state, spec);
      case WhenCostJustifiesDisruption => found := FindCostJustified(state, spec, ratios);
    }
    found := First(found, Min(budgets.underutilized, budgets.total - |empty|));
    actions := empty + found;
    if Replaces(spec) {
      actions := actions + First(replacements, Min(budgets.underutilized - |found|, budgets.total - |empty| - |found|));
    }
  }

  method SimulateAndValidate(state: ClusterState, actions: seq<Action>) returns (validated: seq<Action>)
    requires state.Valid() && Inv(state.Model())
    ensures validated == Shrink(state.Model(), actions)
  {
    hide Arena.Valid, Inv, FirstFit, FreeSlots;
    ghost var m := state.Model();
    validated := actions;
    while validated != []
      invariant state.Model() == m && Shrink(m, validated) == Shrink(m, actions)
    {
      var displaced := Displaced(validated);
      if displaced == [] {
        break;
      }
      var slots := CollectSlots(state, NodesOf(validated));
      var fits := PlaceAll(state, slots, displaced);
      if fits {
        break;
      }
      validated := validated[..|validated| - 1];
    }
  }

  method CheckStillValid(state: ClusterState, a: Action, leaving: set<NodeId>) returns (valid: bool)
    requires state.Valid() && Inv(state.Model())
    ensures valid == StillValid(state.Model(), a, leaving)
  {
    hide Arena.Valid, Inv, CanReschedule, HasWorkload;
    var node := state.nodes.Find(a.node);
    if node.None? || !node.value.ready || node.value.cordoned {
      return false;
    }
    match a {
      case TerminateEmpty(_) =>
        var workload := CheckWorkload(state, node.value.pods);
        valid := !workload;
      case DrainAndTerminate(_, _) =>
        var pods := PodsCanReschedule(state, a.node, leaving);
        valid := pods.Some?;
      case Replace(_, _, _) =>
        valid := true;
    }
  }

  method ValidateBeforeExecute(state: ClusterState, actions: seq<Action>) returns (validated: seq<Action>)
    requires state.Valid() && Inv(state.Model())
    ensures validated == Revalidate(state.Model(), actions)
  {
    hide Arena.Valid, Inv, StillValid;
    ghost var m := state.Model();
    validated := [];
    for i := 0 to |actions|
      invariant state.Model() == m
      invariant validated == Revalidate(m, actions[..i])
    {
      assert actions[..i + 1][..i] == actions[..i];
      var valid := CheckStillValid(state, actions[i], NodesOf(validated));
      if valid {
        validated := validated + [actions[i]];
      }
    }
    assert actions[..|actions|] == actions;
  }

  /** Cordon the nodes at once and schedule the rest, one node after the other. */
  method Execute(state: ClusterState, pool: NodePool, plan: seq<Action>, time: nat)
    returns (followUps: seq<ScheduledEvent>)
    requires state.Valid()
    modifies state.nodes
    ensures state.Valid() && state.Model() == CordonAll(old(state.Model()), plan)
    ensures followUps == PlanEvents(pool, plan, time)
  {
    hide Arena.Valid, Cordon, ActionEvents;
    followUps := [];
    var offset := 0;
    for i := 0 to |plan|
      invariant state.Valid() && state.Model() == CordonAll(old(state.Model()), plan[..i])
      invariant followUps == PlanEvents(pool, plan[..i], time) && offset == i * STABILIZATION
    {
      assert plan[..i + 1][..i] == plan[..i];
      state.Cordon(plan[i].node);
      followUps := followUps + ActionEvents(pool, plan[i], time + offset);
      offset := offset + STABILIZATION;
    }
    assert plan[..|plan|] == plan;
  }

  // ----- The handler -----

  /** Arithmetic in a machine word wraps around. */
  function Wrap(x: int): (word: nat)
    ensures word <= U64_MAX
  {
    x % (U64_MAX + 1)
  }

  function Mix(hash: nat, value: nat): nat {
    Wrap(hash * 31 + value)
  }

  function UsedCpu(m: Cluster, ids: seq<NodeId>): nat {
    if ids == [] then 0
    else
      var rest, n := UsedCpu(m, ids[..|ids| - 1]), ids[|ids| - 1];
      if m.HasNode(n) then Wrap(rest + m.Node(n).used.cpu) else rest
  }

  function CordonedCount(m: Cluster, ids: seq<NodeId>): nat {
    if ids == [] then 0
    else
      var n := ids[|ids| - 1];
      CordonedCount(m, ids[..|ids| - 1]) + (if m.HasNode(n) && m.Node(n).cordoned then 1 else 0)
  }

  /** The fingerprint by which a pass recognises an unchanged state. */
  function StateHash(m: Cluster): nat {
    Mix(Mix(Mix(Mix(|m.nodes.live|, |m.pods.live|), |m.pending|), UsedCpu(m, Order(m.nodes))),
        CordonedCount(m, Order(m.nodes)))
  }

  lemma MixCancels(a: nat, b: nat, v: nat)
    requires a <= U64_MAX && b <= U64_MAX
    ensures Mix(a, v) == Mix(b, v) <==> a == b
  {
    if Mix(a, v) == Mix(b, v) {
      var t := (a * 31 + v) / (U64_MAX + 1) - (b * 31 + v) / (U64_MAX + 1);
      assert 31 * (a - b) == (31 * 595056260442243600 + 16) * t;
      assert 31 * (2 * (a - b - 595056260442243600 * t) - t) == t;
      assert -31 < t < 31;
    }
  }

  lemma SameResidue(a: int, b: int, t: int)
    requires a == b + t * (U64_MAX + 1)
    ensures Wrap(a) == Wrap(b)
  {
    var i, j := a / (U64_MAX + 1), b / (U64_MAX + 1);
    assert a % (U64_MAX + 1) - b % (U64_MAX + 1) == (U64_MAX + 1) * (t - i + j);
  }

  lemma ResiduesCancel(c: int, x: int, y: int)
    ensures Wrap(c + x) == Wrap(c + y) <==> Wrap(x) == Wrap(y)
  {
    if Wrap(x) == Wrap(y) {
      SameResidue(c + x, c + y, x / (U64_MAX + 1) - y / (U64_MAX + 1));
    }
    if Wrap(c + x) == Wrap(c + y) {
      SameResidue(x, y, (c + x) / (U64_MAX + 1) - (c + y) / (U64_MAX + 1));
    }
  }

  lemma MixOfMix(h: nat, q: nat, cpu: nat)
    ensures Mix(Mix(h, q), cpu) == Wrap(961 * h + (31 * q + cpu))
  {
    SameResidue(961 * h + (31 * q + cpu), Mix(h, q) * 31 + cpu, 31 * ((h * 31 + q) / (U64_MAX + 1)));
  }

  lemma MixTwice(h: nat, q: nat, cpu: nat, q': nat, cpu': nat)
    ensures Mix(Mix(h, q), cpu) == Mix(Mix(h, q'), cpu') <==>
            Wrap(31 * q + cpu) == Wrap(31 * q' + cpu')
  {
    MixOfMix(h, q, cpu);
    MixOfMix(h, q', cpu');
    hide Mix, Wrap;
    ResiduesCancel(961 * h, 31 * q + cpu, 31 * q' + cpu');
  }

  /** The fingerprint mixes pending pods and allocated CPU: states alike in
      everything else are told apart exactly when 31 times the number of pending
      pods plus the allocated CPU differs. */
  lemma ToldApart(m: Cluster, m': Cluster)
    requires |m'.nodes.live| == |m.nodes.live| && |m'.pods.live| == |m.pods.live|
    requires CordonedCount(m', Order(m'.nodes)) == CordonedCount(m, Order(m.nodes))
    ensures StateHash(m') != StateHash(m) <==>
            Wrap(31 * |m'.pending| + UsedCpu(m', Order(m'.nodes))) !=
            Wrap(31 * |m.pending| + UsedCpu(m, Order(m.nodes)))
  {
    hide UsedCpu, CordonedCount, Order;
    var h := Mix(|m.nodes.live|, |m.pods.live|);
    var q, cpu := |m.pending|, UsedCpu(m, Order(m.nodes));
    var q', cpu' := |m'.pending|, UsedCpu(m', Order(m'.nodes));
    MixTwice(h, q, cpu, q', cpu');
    MixCancels(Mix(Mix(h, q), cpu), Mix(Mix(h, q'), cpu'), CordonedCount(m, Order(m.nodes)));
  }

  lemma AddsUp(before: nat, cpu: nat, grown: nat, more: nat)
    ensures Wrap(Wrap(before + grown) + (cpu + more)) == Wrap(Wrap(before + cpu) + (grown + more))
  {
    SameResidue(Wrap(before + grown) + (cpu + more), Wrap(before + cpu) + (grown + more),
                (before + cpu) / (U64_MAX + 1) - (before + grown) / (U64_MAX + 1));
  }

  /** One node allocates so much more CPU, and all else about nodes stays. */
  ghost predicate GrowsBy(m: Cluster, m': Cluster, n: NodeId, r: nat) {
    && m.HasNode(n) && (forall k :: m'.HasNode(k) <==> m.HasNode(k))
    && (forall k :: m.HasNode(k) ==>
          && m'.Node(k).used.cpu == m.Node(k).used.cpu + (if k == n then r else 0)
          && m'.Node(k).cordoned == m.Node(k).cordoned)
  }

  lemma {:induction false} UsedCpuGrows(m: Cluster, m': Cluster, ids: seq<NodeId>, n: NodeId, r: nat)
    requires NoDuplicates(ids) && GrowsBy(m, m', n, r)
    ensures UsedCpu(m', ids) == Wrap(UsedCpu(m, ids) + (if n in ids then r else 0))
    ensures CordonedCount(m', ids) == CordonedCount(m, ids)
  {
    hide Wrap;
    if ids == [] {
      WordsStay(0);
    } else {
      var front, last := ids[..|ids| - 1], ids[|ids| - 1];
      assert ids == front + [last];
      assert last !in front;
      UsedCpuGrows(m, m', front, n, r);
      hide NoDuplicates;
      if m.HasNode(last) {
        AddsUp(UsedCpu(m, front), m.Node(last).used.cpu, if n in front then r else 0, if last == n then r else 0);
      }
    }
  }

  lemma WordsStay(x: nat)
    requires x <= U64_MAX
    ensures Wrap(x) == x
  {
  }

  /** So a pass notices a bind exactly when the pod does not request 31
      millicores: with 31 the fingerprint stays, and the pass is skipped. */
  lemma BindIsNoticed(m: Cluster, p: PodId, n: NodeId)
    requires Inv(m) && CanBind(m, p, n) && SumFits(m, p, n)
    ensures StateHash(BindPod(m, p, n)) != StateHash(m) <==> m.Pod(p).requests.cpu != 31
  {
    var m', r := BindPod(m, p, n), m.Pod(p).requests.cpu;
    BindShape(m, p, n);
    hide *;
    UsedCpuGrows(m, m', Order(m.nodes), n, r);
    ToldApart(m, m');
    OnePendingLess(|m.pending|, UsedCpu(m, Order(m.nodes)), r);
  }

  lemma BindShape(m: Cluster, p: PodId, n: NodeId)
    requires Inv(m) && CanBind(m, p, n) && SumFits(m, p, n)
    ensures var m', r := BindPod(m, p, n), m.Pod(p).requests.cpu;
            && GrowsBy(m, m', n, r) && NoDuplicates(Order(m.nodes)) && n in Order(m.nodes)
            && |m'.nodes.live| == |m.nodes.live| && |m'.pods.live| == |m.pods.live|
            && Order(m'.nodes) == Order(m.nodes) && |m'.pending| == |m.pending| - 1 && r <= U64_MAX
  {
    OrderFacts(m.nodes);
    BindCountsStay(m, p, n);
    hide Inv, OrderUpTo, NoDuplicates;
    BindGrows(m, p, n);
  }

  lemma BindGrows(m: Cluster, p: PodId, n: NodeId)
    requires CanBind(m, p, n) && SumFits(m, p, n)
    ensures GrowsBy(m, BindPod(m, p, n), n, m.Pod(p).requests.cpu) && m.Pod(p).requests.cpu <= U64_MAX
  {
    var m' := BindPod(m, p, n);
    assert forall k :: m'.HasNode(k) <==> m.HasNode(k);
  }

  lemma BindCountsStay(m: Cluster, p: PodId, n: NodeId)
    requires Inv(m) && CanBind(m, p, n)
    ensures var m' := BindPod(m, p, n);
            && m'.nodes.live.Keys == m.nodes.live.Keys
            && |m'.nodes.live| == |m.nodes.live| && |m'.pods.live| == |m.pods.live| && |m'.pending| == |m.pending| - 1
  {
    assert p in m.pending;
    hide Inv, NodeAgrees, PodAgrees, QueueAgrees, Consistent;
    var m' := BindPod(m, p, n);
    SameSize(m.pods.live, m'.pods.live);
    SameSize(m.nodes.live, m'.nodes.live);
  }

  /** One pending pod less against its CPU: the sums agree for 31 millicores only. */
  lemma OnePendingLess(q: nat, cpu: nat, r: nat)
    requires q >= 1 && r <= U64_MAX
    ensures Wrap(31 * (q - 1) + Wrap(cpu + r)) != Wrap(31 * q + cpu) <==> r != 31
  {
    SameResidue(31 * (q - 1) + Wrap(cpu + r), 31 * q + cpu + (r - 31),
                0 - (cpu + r) / (U64_MAX + 1));
    ResiduesCancel(31 * q + cpu, r - 31, 0);
  }

  lemma SameSize<T>(a: map<Handle, T>, b: map<Handle, T>)
    requires a.Keys == b.Keys
    ensures |a| == |b|
  {
    assert |a| == |a.Keys| && |b| == |b.Keys|;
  }

  method SumNodes(state: ClusterState) returns (cpu: nat, cordoned: nat)
    requires state.Valid()
    ensures var ids := Order(state.Model().nodes);
            cpu == UsedCpu(state.Model(), ids) && cordoned == CordonedCount(state.Model(), ids)
  {
    hide Arena.Valid, Order;
    ghost var m := state.Model();
    cpu, cordoned := 0, 0;
    var ids := state.nodes.Handles();
    for i := 0 to |ids|
      invariant state.Model() == m
      invariant cpu == UsedCpu(m, ids[..i]) && cordoned == CordonedCount(m, ids[..i])
    {
      assert ids[..i + 1][..i] == ids[..i];
      var node := state.nodes.Find(ids[i]);
      if node.Some? {
        cpu := Wrap(cpu + node.value.used.cpu);
        cordoned := cordoned + (if node.value.cordoned then 1 else 0);
      }
    }
    assert ids[..|ids|] == ids;
  }

  method ComputeStateHash(state: ClusterState) returns (hash: nat)
    requires state.Valid()
    ensures hash == StateHash(state.Model())
  {
    hide Arena.Valid, Mix, UsedCpu, CordonedCount, Order;
    var nodes := state.nodes.Count();
    var pods := state.pods.Count();
    var cpu, cordoned := SumNodes(state);
    hash := Mix(Mix(Mix(Mix(nodes, pods), |state.pendingQueue|), cpu), cordoned);
  }

  class ConsolidationHandler {
    const spec: PlannerSpec
    const loopInterval: nat
    const maxInterval: nat
    var currentInterval: nat
    var lastStateHash: nat

    constructor (spec: PlannerSpec, loopInterval: nat, maxInterval: nat)
      ensures this.spec == spec && this.loopInterval == loopInterval && this.maxInterval == maxInterval
      ensures currentInterval == loopInterval && lastStateHash == 0
    {
      this.spec, this.loopInterval, this.maxInterval := spec, loopInterval, maxInterval;
      currentInterval, lastStateHash := loopInterval, 0;
    }

    /** The polling interval stays between its base and its maximum. */
    ghost predicate Paced()
      reads this
    {
      loopInterval <= currentInterval <= maxInterval
    }

    method BackOff()
      modifies this`currentInterval
      ensures currentInterval == Min(old(currentInterval) * 2, maxInterval)
      ensures old(Paced()) ==> Paced()
    {
      currentInterval := MinNat(currentInterval * 2, maxInterval);
    }

    /** Handle the consolidation loop event. An unchanged state is skipped;
        otherwise the plan is made, validated twice and executed. */
    method HandleLoop(
      state: ClusterState, time: nat, entries: seq<BudgetEntry>, ratios: NodeId -> real, replacements: seq<Action>)
      returns (followUps: seq<ScheduledEvent>)
      requires state.Valid() && Inv(state.Model())
      modifies this, state.nodes
      ensures state.Valid()
      ensures old(Paced()) ==> Paced()
      ensures var m := old(state.Model());
              var skipped := StateHash(m) == old(lastStateHash);
              var plan := if skipped then [] else Plan(m, spec, entries, ratios, replacements);
              && state.Model() == CordonAll(m, plan)
              && followUps == PlanEvents(spec.pool, plan, time) + [At(time + currentInterval, ConsolidationLoop)]
              && currentInterval == (if plan == [] then Min(old(currentInterval) * 2, maxInterval) else loopInterval)
              && lastStateHash == (if plan == [] then StateHash(m) else 0)
    {
      hide Arena.Valid, Inv, Evaluate, Shrink, Revalidate, StateHash, Cordon, ActionEvents, BudgetsFor;
      var hash := ComputeStateHash(state);
      if hash == lastStateHash {
        BackOff();
        return [At(time + currentInterval, ConsolidationLoop)];
      }
      lastStateHash := hash;
      var totalNodes := state.nodes.Count();
      var budgets := ResolveBudgets(spec.pool, entries, totalNodes);
      var actions := EvaluateActions(state, spec, budgets, ratios, replacements);
      actions := SimulateAndValidate(state, actions);
      actions := ValidateBeforeExecute(state, actions);
      followUps := Execute(state, spec.pool, actions, time);
      if actions != [] {
        currentInterval, lastStateHash := loopInterval, 0;
      } else {
        BackOff();
      }
      followUps := followUps + [At(time + currentInterval, ConsolidationLoop)];
    }
  }
}
