/** Admission rules of the diagnostic query and the reference meaning of its answer. */
module Diagnostic {
  import opened Identity
  import opened GraphModel

  const DEFAULT_MAX_NODES := 200
  const DEFAULT_MAX_EDGES := 400

  datatype Policy = Policy(
    maxDepth: int, storageMaxDepth: int, maxNodes: int, maxEdges: int,
    terminalKinds: seq<NodeKind>, expandTerminalNodes: bool, includeStorage: bool)

  /** Missing depths and budgets take their defaults. */
  function Effective(policy: Policy): (p: Policy)
    ensures p.maxDepth >= 1 && p.storageMaxDepth >= 1 && p.maxNodes >= 1 && p.maxEdges >= 1
  {
    var depth := if policy.maxDepth <= 0 then 1 else policy.maxDepth;
    policy.(
      maxDepth := depth,
      storageMaxDepth := if policy.storageMaxDepth <= 0 then depth else policy.storageMaxDepth,
      maxNodes := if policy.maxNodes <= 0 then DEFAULT_MAX_NODES else policy.maxNodes,
      maxEdges := if policy.maxEdges <= 0 then DEFAULT_MAX_EDGES else policy.maxEdges)
  }

  /** A query: the root node and the effective policy. */
  datatype Query = Query(root: Node, policy: Policy)

  function MaxTraversalDepth(policy: Policy): int {
    if policy.includeStorage && policy.storageMaxDepth > policy.maxDepth then policy.storageMaxDepth else policy.maxDepth
  }

  predicate IsStorageKind(kind: EdgeKind) {
    kind in {MountsPVC, BoundToPV, UsesStorageClass, ProvisionedByCSIDriver, ImplementedByCSIController,
             ImplementedByCSINodeAgent, ManagedByCSIController, ServedByCSINodeAgent}
  }

  predicate ShouldTraverse(kind: EdgeKind, depth: int, policy: Policy) {
    if IsStorageKind(kind) then policy.includeStorage && depth < policy.storageMaxDepth
    else depth < policy.maxDepth
  }

  predicate ShouldTraverseDriverNodeAgents(rootKind: NodeKind) {
    rootKind !in {Pod, Workload, PVC, PV}
  }

  /** The "nodeName" attribute when it is a string, else "". */
  function NodeNameOf(node: Node): string {
    if "nodeName" in node.attributes && node.attributes["nodeName"].Str? then node.attributes["nodeName"].s else ""
  }

  predicate AgentMatchesRootPodNode(g: Graph, agent: CanonicalID, root: Node) {
    NodeNameOf(root) != "" && agent in g.nodes && NodeNameOf(g.nodes[agent]) == NodeNameOf(root)
  }

  /** Whether the query may leave `current` over the edge `k` at the given depth. */
  predicate Admits(g: Graph, q: Query, current: Node, k: EdgeKey, depth: int) {
    && ShouldTraverse(k.kind, depth, q.policy)
    && match current.kind
       case HelmRelease =>
         (k.from == current.id && k.kind == InstallsChart)
         || (q.root.kind == HelmRelease && k.to == current.id && k.kind == ManagedByHelmRelease)
       case StorageClass =>
         k.from == current.id && k.kind == ProvisionedByCSIDriver
       case PV =>
         k.kind == ServedByCSINodeAgent && q.root.kind == Pod ==>
           k.from == current.id && AgentMatchesRootPodNode(g, k.to, q.root)
       case CSIDriver =>
         k.from == current.id
         && (k.kind == ImplementedByCSIController
             || (k.kind == ImplementedByCSINodeAgent && ShouldTraverseDriverNodeAgents(q.root.kind)))
       case _ => true
  }

  predicate IsCSIComponentKind(kind: EdgeKind) {
    kind in {ImplementedByCSIController, ImplementedByCSINodeAgent, ManagedByCSIController, ServedByCSINodeAgent}
  }

  predicate IsTerminalCSINode(g: Graph, node: Node) {
    node.kind == Pod && exists k | k in g.edges :: TouchesKey(k, node.id) && IsCSIComponentKind(k.kind)
  }

  predicate IsTerminal(g: Graph, q: Query, node: Node) {
    && !q.policy.expandTerminalNodes
    && (|| IsTerminalCSINode(g, node)
        || (node.id != q.root.id && q.root.kind == Pod && node.kind == Pod)
        || node.kind in q.policy.terminalKinds)
  }

  /** The query looks across edge `k` from node `u` at the given depth. */
  predicate Opens(g: Graph, q: Query, u: CanonicalID, k: EdgeKey, depth: int) {
    u in g.nodes && k in g.edges && TouchesKey(k, u) && !IsTerminal(g, q, g.nodes[u]) && Admits(g, q, g.nodes[u], k, depth)
  }

  function OtherEnd(k: EdgeKey, u: CanonicalID): CanonicalID {
    if k.from == u then k.to else k.from
  }

  /** A sequence of nodes with the edges between them. */
  datatype Walk = Walk(nodes: seq<CanonicalID>, edges: seq<EdgeKey>) {
    ghost predicate Shaped() { |nodes| == |edges| + 1 }
    function End(): CanonicalID requires Shaped() { nodes[|edges|] }
  }

  ghost predicate IsStep(g: Graph, q: Query, w: Walk, i: nat)
    requires w.Shaped() && i < |w.edges|
  {
    && Opens(g, q, w.nodes[i], w.edges[i], i)
    && w.nodes[i + 1] == OtherEnd(w.edges[i], w.nodes[i])
    && w.nodes[i + 1] in g.nodes
  }

  /** A walk from the root whose step i leaves a non-terminal node over an edge admitted at depth i. */
  ghost predicate IsAdmissible(g: Graph, q: Query, w: Walk) {
    && w.Shaped() && w.nodes[0] == q.root.id
    && forall i | 0 <= i < |w.edges| :: IsStep(g, q, w, i)
  }

  ghost predicate ReachedAt(g: Graph, q: Query, v: CanonicalID, depth: nat) {
    exists w: Walk :: IsAdmissible(g, q, w) && |w.edges| == depth && w.End() == v
  }

  ghost predicate ExposedAt(g: Graph, q: Query, k: EdgeKey, depth: nat) {
    exists w: Walk :: IsAdmissible(g, q, w) && |w.edges| == depth && Opens(g, q, w.End(), k, depth)
  }

  /** The nodes some admissible walk reaches, without any budget. */
  ghost function Closure(g: Graph, q: Query): set<CanonicalID> {
    set v | v in g.nodes && exists depth: nat :: ReachedAt(g, q, v, depth)
  }

  /** The edges some admissible walk looks across, without any budget. */
  ghost function ClosureEdges(g: Graph, q: Query): set<EdgeKey> {
    set k | k in g.edges && exists depth: nat :: ExposedAt(g, q, k, depth)
  }

  /** Whatever is admitted at some depth is admitted at every smaller depth. */
  lemma OpensIsAntitone(g: Graph, q: Query, u: CanonicalID, k: EdgeKey, depth: int, smaller: int)
    requires Opens(g, q, u, k, depth) && smaller <= depth
    ensures Opens(g, q, u, k, smaller)
  {
  }

  lemma RootIsReached(g: Graph, q: Query)
    ensures ReachedAt(g, q, q.root.id, 0)
  {
    assert IsAdmissible(g, q, Walk([q.root.id], []));
    assert Walk([q.root.id], []).End() == q.root.id;
  }

  /** One more step of a walk. */
  lemma ReachExtends(g: Graph, q: Query, u: CanonicalID, k: EdgeKey, depth: nat)
    requires ReachedAt(g, q, u, depth) && Opens(g, q, u, k, depth)
    ensures ExposedAt(g, q, k, depth)
    ensures OtherEnd(k, u) in g.nodes ==> ReachedAt(g, q, OtherEnd(k, u), depth + 1)
  {
    hide Opens;
    var w :| IsAdmissible(g, q, w) && |w.edges| == depth && w.End() == u;
    if OtherEnd(k, u) in g.nodes {
      WalkExtends(g, q, w, k);
    }
  }

  lemma WalkExtends(g: Graph, q: Query, w: Walk, k: EdgeKey)
    requires IsAdmissible(g, q, w) && Opens(g, q, w.End(), k, |w.edges|) && OtherEnd(k, w.End()) in g.nodes
    ensures ReachedAt(g, q, OtherEnd(k, w.End()), |w.edges| + 1)
  {
    hide Opens, OtherEnd;
    var v := OtherEnd(k, w.End());
    var w' := Walk(w.nodes + [v], w.edges + [k]);
    assert w'.nodes[|w.edges|] == w.End() && w'.edges[|w.edges|] == k;
    forall i | 0 <= i < |w'.edges|
      ensures IsStep(g, q, w', i)
    {
      if i < |w.edges| {
        assert IsStep(g, q, w, i);
        assert w'.nodes[i] == w.nodes[i] && w'.nodes[i + 1] == w.nodes[i + 1] && w'.edges[i] == w.edges[i];
      }
    }
    assert IsAdmissible(g, q, w') && w'.End() == v;
  }

  /** `depthOf` records for each listed node a depth at which the query expanded or will expand it. */
  ghost predicate Sound(g: Graph, q: Query, depthOf: map<CanonicalID, nat>, edges: set<EdgeKey>) {
    && q.root.id in depthOf && depthOf[q.root.id] == 0
    && (forall v | v in depthOf :: v in g.nodes && ReachedAt(g, q, v, depthOf[v]))
    && (forall k | k in edges :: k in g.edges && exists depth: nat :: ExposedAt(g, q, k, depth))
  }

  /** Everything the query sees from `u` is listed, no later than one level below `u`. */
  ghost predicate Settled(g: Graph, q: Query, depthOf: map<CanonicalID, nat>, edges: set<EdgeKey>, u: CanonicalID)
    requires u in depthOf
  {
    forall k | Opens(g, q, u, k, depthOf[u]) ::
      k in edges && (OtherEnd(k, u) in g.nodes ==> OtherEnd(k, u) in depthOf && depthOf[OtherEnd(k, u)] <= depthOf[u] + 1)
  }

  lemma {:induction false} SettledCoversWalks(
    g: Graph, q: Query, depthOf: map<CanonicalID, nat>, edges: set<EdgeKey>, w: Walk, n: nat)
    requires Sound(g, q, depthOf, edges) && forall u | u in depthOf :: Settled(g, q, depthOf, edges, u)
    requires IsAdmissible(g, q, w) && n <= |w.edges|
    ensures w.nodes[n] in depthOf && depthOf[w.nodes[n]] <= n
  {
    hide Opens;
    if n > 0 {
      assert IsStep(g, q, w, n - 1);
      SettledCoversWalks(g, q, depthOf, edges, w, n - 1);
      OpensIsAntitone(g, q, w.nodes[n - 1], w.edges[n - 1], n - 1, depthOf[w.nodes[n - 1]]);
    }
  }

  /** First discovery is shortest: a settled sound listing is the whole closure. */
  lemma SettledIsClosure(g: Graph, q: Query, depthOf: map<CanonicalID, nat>, edges: set<EdgeKey>)
    requires Sound(g, q, depthOf, edges) && forall u | u in depthOf :: Settled(g, q, depthOf, edges, u)
    ensures depthOf.Keys == Closure(g, q) && edges == ClosureEdges(g, q)
  {
    hide Opens;
    forall v | v in Closure(g, q)
      ensures v in depthOf
    {
      var depth: nat :| ReachedAt(g, q, v, depth);
      var w :| IsAdmissible(g, q, w) && |w.edges| == depth && w.End() == v;
      SettledCoversWalks(g, q, depthOf, edges, w, depth);
    }
    forall k | k in ClosureEdges(g, q)
      ensures k in edges
    {
      var depth: nat :| ExposedAt(g, q, k, depth);
      var w :| IsAdmissible(g, q, w) && |w.edges| == depth && Opens(g, q, w.End(), k, depth);
      SettledCoversWalks(g, q, depthOf, edges, w, depth);
      OpensIsAntitone(g, q, w.End(), k, depth, depthOf[w.End()]);
    }
  }

  lemma SoundIsWithinClosure(g: Graph, q: Query, depthOf: map<CanonicalID, nat>, edges: set<EdgeKey>)
    requires Sound(g, q, depthOf, edges)
    ensures depthOf.Keys <= Closure(g, q) && edges <= ClosureEdges(g, q)
  {
  }

  /** Unless terminal nodes are expanded, a pod's answer shows a volume's node agent only if it runs on that pod's node.
      The agent side of such an edge is a component pod, which is terminal and never looks across it. */
  lemma AgentEdgesStayOnTheRootsNode(g: Graph, q: Query, k: EdgeKey)
    requires g.Valid() && !q.policy.expandTerminalNodes && q.root.kind == Pod
    requires k in ClosureEdges(g, q) && k.kind == ServedByCSINodeAgent
    requires k.from in g.nodes && g.nodes[k.from].kind == PV
    requires k.to in g.nodes ==> g.nodes[k.to].kind == Pod
    ensures k.to in g.nodes && NodeNameOf(g.nodes[k.to]) == NodeNameOf(q.root) != ""
  {
    var depth: nat :| ExposedAt(g, q, k, depth);
    var w :| IsAdmissible(g, q, w) && |w.edges| == depth && Opens(g, q, w.End(), k, depth);
    if w.End() == k.to {
      assert IsTerminalCSINode(g, g.nodes[k.to]);
    }
  }

  /** Queries rooted at workloads, pods or volumes never list a driver's node agents. */
  lemma DriverAgentsStayOut(g: Graph, q: Query, k: EdgeKey)
    requires g.Valid() && !q.policy.expandTerminalNodes && q.root.kind in {Pod, Workload, PVC, PV}
    requires k.kind == ImplementedByCSINodeAgent && k.from in g.nodes && g.nodes[k.from].kind == CSIDriver
    requires k.to in g.nodes ==> g.nodes[k.to].kind == Pod
    ensures k !in ClosureEdges(g, q)
  {
    forall u, depth: nat
      ensures !Opens(g, q, u, k, depth)
    {
      assert u == k.to && u in g.nodes && k in g.edges ==> IsTerminalCSINode(g, g.nodes[u]);
    }
    hide Opens;
  }

  /** No node of the answer is further from the root than the deeper of the two limits. */
  lemma DepthIsRespected(g: Graph, q: Query, v: CanonicalID)
    requires v in Closure(g, q)
    ensures exists depth: nat :: ReachedAt(g, q, v, depth) && (depth == 0 || depth <= MaxTraversalDepth(q.policy))
  {
    var depth: nat :| ReachedAt(g, q, v, depth);
    var w :| IsAdmissible(g, q, w) && |w.edges| == depth && w.End() == v;
    if depth > 0 {
      assert IsStep(g, q, w, depth - 1);
    }
  }

  /** Raising the depth limits never loses a node or an edge of the unbounded answer. */
  lemma ClosureGrowsWithDepth(g: Graph, q: Query, deeper: Query)
    requires deeper.root == q.root
    requires deeper.policy == q.policy.(maxDepth := deeper.policy.maxDepth, storageMaxDepth := deeper.policy.storageMaxDepth,
                                        maxNodes := deeper.policy.maxNodes, maxEdges := deeper.policy.maxEdges)
    requires q.policy.maxDepth <= deeper.policy.maxDepth && q.policy.storageMaxDepth <= deeper.policy.storageMaxDepth
    ensures Closure(g, q) <= Closure(g, deeper) && ClosureEdges(g, q) <= ClosureEdges(g, deeper)
  {
    forall u, k, depth: nat | Opens(g, q, u, k, depth)
      ensures Opens(g, deeper, u, k, depth)
    {
    }
    hide Opens;
    forall w | IsAdmissible(g, q, w)
      ensures IsAdmissible(g, deeper, w)
    {
      forall i | 0 <= i < |w.edges|
        ensures IsStep(g, deeper, w, i)
      {
        assert IsStep(g, q, w, i);
      }
    }
    forall v, depth: nat | ReachedAt(g, q, v, depth)
      ensures ReachedAt(g, deeper, v, depth)
    {
    }
    forall k, depth: nat | ExposedAt(g, q, k, depth)
      ensures ExposedAt(g, deeper, k, depth)
    {
    }
  }
}
