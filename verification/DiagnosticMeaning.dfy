/** Which edges a diagnostic answer shows at each kind of node, said without the admission test. */
module DiagnosticMeaning {
  import opened Identity
  import opened GraphModel
  import opened Diagnostic

  const STORAGE: set<EdgeKind> := {
    MountsPVC, BoundToPV, UsesStorageClass, ProvisionedByCSIDriver, ImplementedByCSIController, ImplementedByCSINodeAgent,
    ManagedByCSIController, ServedByCSINodeAgent}

  const COMPONENT: set<EdgeKind> := {ImplementedByCSIController, ImplementedByCSINodeAgent, ManagedByCSIController, ServedByCSINodeAgent}

  /** An edge of the kind may be crossed at the depth. */
  predicate Within(kind: EdgeKind, depth: int, p: Policy) {
    if kind in STORAGE then p.includeStorage && depth < p.storageMaxDepth else depth < p.maxDepth
  }

  /** The answer goes no further at such a node: a folded kind, a component pod, or another pod of a pod's answer. */
  ghost predicate Folded(g: Graph, q: Query, n: Node) {
    && !q.policy.expandTerminalNodes
    && (|| n.kind in q.policy.terminalKinds
        || (n.kind == Pod && exists k | k in g.edges :: (k.from == n.id || k.to == n.id) && k.kind in COMPONENT)
        || (n.kind == Pod && q.root.kind == Pod && n.id != q.root.id))
  }

  /** A node of the kind, reached at the depth, that the answer looks beyond. */
  ghost predicate LooksBeyond(g: Graph, q: Query, u: CanonicalID, depth: nat) {
    u in g.nodes && ReachedAt(g, q, u, depth) && !Folded(g, q, g.nodes[u])
  }

  /** The answer shows the edge, and what is at its other end. */
  ghost predicate Shows(g: Graph, q: Query, u: CanonicalID, k: EdgeKey) {
    k in ClosureEdges(g, q) && forall v | v in g.nodes && (k == EdgeKey(u, k.kind, v) || k == EdgeKey(v, k.kind, u)) :: v in Closure(g, q)
  }

  lemma OpenedIsShown(g: Graph, q: Query, u: CanonicalID, k: EdgeKey, depth: nat)
    requires g.Valid() && ReachedAt(g, q, u, depth) && Opens(g, q, u, k, depth)
    ensures Shows(g, q, u, k)
  {
    ReachExtends(g, q, u, k, depth);
    hide ReachedAt, Opens, ExposedAt;
    assert u in Closure(g, q);
  }

  /** A missing depth is 1, a missing storage depth the depth, missing budgets 200 nodes and 400 edges; what is given is kept. */
  lemma MissingLimitsTakeDefaults(given: Policy)
    ensures var p := Effective(given);
            && p.maxDepth == (if given.maxDepth > 0 then given.maxDepth else 1)
            && p.storageMaxDepth == (if given.storageMaxDepth > 0 then given.storageMaxDepth else p.maxDepth)
            && p.maxNodes == (if given.maxNodes > 0 then given.maxNodes else 200) && p.maxEdges == (if given.maxEdges > 0 then given.maxEdges else 400)
            && p.terminalKinds == given.terminalKinds && p.expandTerminalNodes == given.expandTerminalNodes && p.includeStorage == given.includeStorage
  {
  }

  // ---- Where a walk may go ----

  /** Every step crosses an edge of its own node, of a kind asked for and within its depth limit, and no step leaves a folded node. */
  lemma StepsStayWithin(g: Graph, q: Query, w: Walk, i: nat)
    requires g.Valid() && IsAdmissible(g, q, w) && i < |w.edges|
    ensures var u, k, v := w.nodes[i], w.edges[i], w.nodes[i + 1];
            && u in g.nodes && v in g.nodes && k in g.edges && (k == EdgeKey(u, k.kind, v) || k == EdgeKey(v, k.kind, u))
            && Within(k.kind, i, q.policy) && !Folded(g, q, g.nodes[u])
  {
    assert IsStep(g, q, w, i);
  }

  /** From a storage class a walk goes to the class's driver and nowhere else. */
  lemma ClassesLeadToTheirDrivers(g: Graph, q: Query, w: Walk, i: nat)
    requires g.Valid() && IsAdmissible(g, q, w) && i < |w.edges| && w.nodes[i] in g.nodes && g.nodes[w.nodes[i]].kind == StorageClass
    ensures w.edges[i] == EdgeKey(w.nodes[i], ProvisionedByCSIDriver, w.nodes[i + 1])
  {
    assert IsStep(g, q, w, i);
  }

  /** From a Helm release it goes to the chart, and to the release's members when the question is about a release. */
  lemma ReleasesLeadToChartsAndMembers(g: Graph, q: Query, w: Walk, i: nat)
    requires g.Valid() && IsAdmissible(g, q, w) && i < |w.edges| && w.nodes[i] in g.nodes && g.nodes[w.nodes[i]].kind == HelmRelease
    ensures w.edges[i] == EdgeKey(w.nodes[i], InstallsChart, w.nodes[i + 1])
            || (q.root.kind == HelmRelease && w.edges[i] == EdgeKey(w.nodes[i + 1], ManagedByHelmRelease, w.nodes[i]))
  {
    assert IsStep(g, q, w, i);
  }

  /** From a driver it goes to the driver's controllers, and to its node agents unless the question is about a pod, workload, claim or volume. */
  lemma DriversLeadToTheirComponents(g: Graph, q: Query, w: Walk, i: nat)
    requires g.Valid() && IsAdmissible(g, q, w) && i < |w.edges| && w.nodes[i] in g.nodes && g.nodes[w.nodes[i]].kind == CSIDriver
    ensures w.edges[i] == EdgeKey(w.nodes[i], ImplementedByCSIController, w.nodes[i + 1])
            || (w.edges[i] == EdgeKey(w.nodes[i], ImplementedByCSINodeAgent, w.nodes[i + 1]) && q.root.kind !in {Pod, Workload, PVC, PV})
  {
    assert IsStep(g, q, w, i);
  }

  /** From a volume, when the question is about a pod, it goes to no other node agent than one on the pod's own node. */
  lemma VolumesLeadToAgentsOfTheRoot(g: Graph, q: Query, w: Walk, i: nat)
    requires g.Valid() && IsAdmissible(g, q, w) && i < |w.edges| && w.nodes[i] in g.nodes && g.nodes[w.nodes[i]].kind == PV
    requires q.root.kind == Pod && w.edges[i].kind == ServedByCSINodeAgent
    ensures w.edges[i] == EdgeKey(w.nodes[i], ServedByCSINodeAgent, w.nodes[i + 1])
    ensures OnNodeOf(g, w.nodes[i + 1], q.root)
  {
    assert IsStep(g, q, w, i);
  }

  /** Both nodes carry the same non-empty node name. */
  ghost predicate OnNodeOf(g: Graph, agent: CanonicalID, root: Node) {
    && agent in g.nodes && "nodeName" in root.attributes && "nodeName" in g.nodes[agent].attributes
    && root.attributes["nodeName"].Str? && root.attributes["nodeName"].s != ""
    && g.nodes[agent].attributes["nodeName"] == root.attributes["nodeName"]
  }

  // ---- What must be shown ----

  /** A class reached within the storage depth shows its driver. */
  lemma ClassesShowTheirDrivers(g: Graph, q: Query, u: CanonicalID, k: EdgeKey, depth: nat)
    requires g.Valid() && LooksBeyond(g, q, u, depth) && g.nodes[u].kind == StorageClass
    requires q.policy.includeStorage && depth < q.policy.storageMaxDepth
    requires k in g.edges && k.from == u && k.kind == ProvisionedByCSIDriver
    ensures Shows(g, q, u, k)
  {
    OpenedIsShown(g, q, u, k, depth);
  }

  /** A release shows its chart, and its members when the question is about a release. */
  lemma ReleasesShowChartsAndMembers(g: Graph, q: Query, u: CanonicalID, k: EdgeKey, depth: nat)
    requires g.Valid() && LooksBeyond(g, q, u, depth) && g.nodes[u].kind == HelmRelease && depth < q.policy.maxDepth
    requires k in g.edges
    requires (k.from == u && k.kind == InstallsChart) || (q.root.kind == HelmRelease && k.to == u && k.kind == ManagedByHelmRelease)
    ensures Shows(g, q, u, k)
  {
    OpenedIsShown(g, q, u, k, depth);
  }

  /** A driver always shows its controllers, and its node agents unless the question is about a pod, workload, claim or volume. */
  lemma DriversShowTheirComponents(g: Graph, q: Query, u: CanonicalID, k: EdgeKey, depth: nat)
    requires g.Valid() && LooksBeyond(g, q, u, depth) && g.nodes[u].kind == CSIDriver
    requires q.policy.includeStorage && depth < q.policy.storageMaxDepth && k in g.edges && k.from == u
    requires k.kind == ImplementedByCSIController || (k.kind == ImplementedByCSINodeAgent && q.root.kind !in {Pod, Workload, PVC, PV})
    ensures Shows(g, q, u, k)
  {
    OpenedIsShown(g, q, u, k, depth);
  }

  /** A volume shows everything, of its node agents those on the pod's node when the question is about a pod. */
  lemma VolumesShowTheRest(g: Graph, q: Query, u: CanonicalID, k: EdgeKey, depth: nat)
    requires g.Valid() && LooksBeyond(g, q, u, depth) && g.nodes[u].kind == PV && k in g.edges && (k.from == u || k.to == u)
    requires Within(k.kind, depth, q.policy)
    requires k.kind == ServedByCSINodeAgent && q.root.kind == Pod ==> k.from == u && OnNodeOf(g, k.to, q.root)
    ensures Shows(g, q, u, k)
  {
    OpenedIsShown(g, q, u, k, depth);
  }

  /** A node of any other kind shows every edge it has within the depth limit of the edge's kind. */
  lemma OthersShowEverything(g: Graph, q: Query, u: CanonicalID, k: EdgeKey, depth: nat)
    requires g.Valid() && LooksBeyond(g, q, u, depth) && g.nodes[u].kind !in {HelmRelease, StorageClass, PV, CSIDriver}
    requires k in g.edges && (k.from == u || k.to == u) && Within(k.kind, depth, q.policy)
    ensures Shows(g, q, u, k)
  {
    OpenedIsShown(g, q, u, k, depth);
  }

  // ---- What is shown at all ----

  /** An edge is shown only where a walk looks beyond one of its ends, which at a class is the start of its own driver edge, at a release
      an end of its chart or member edge, and at a driver the start of a component edge. */
  lemma ShownEdgesAreLookedAcross(g: Graph, q: Query, k: EdgeKey)
    requires g.Valid() && k in ClosureEdges(g, q)
    ensures exists u, depth: nat ::
      && LooksBeyond(g, q, u, depth) && (k.from == u || k.to == u) && Within(k.kind, depth, q.policy)
      && (g.nodes[u].kind == StorageClass ==> k.from == u && k.kind == ProvisionedByCSIDriver)
      && (g.nodes[u].kind == HelmRelease ==> if k.kind == InstallsChart then k.from == u
                                             else k.kind == ManagedByHelmRelease && q.root.kind == HelmRelease && k.to == u)
      && (g.nodes[u].kind == CSIDriver ==> k.from == u && k.kind in {ImplementedByCSIController, ImplementedByCSINodeAgent})
  {
    var depth: nat :| ExposedAt(g, q, k, depth);
    var w :| IsAdmissible(g, q, w) && |w.edges| == depth && Opens(g, q, w.End(), k, depth);
    assert ReachedAt(g, q, w.End(), depth);
    assert LooksBeyond(g, q, w.End(), depth);
  }

  /** An answer without storage has no storage edge. */
  lemma NoStorageUnlessAskedFor(g: Graph, q: Query, k: EdgeKey)
    requires g.Valid() && !q.policy.includeStorage && k in ClosureEdges(g, q)
    ensures k.kind !in STORAGE
  {
    ShownEdgesAreLookedAcross(g, q, k);
  }

  /** No walk passes through a folded kind, a component pod, or another pod of a pod's answer. */
  lemma FoldedNodesAreEnds(g: Graph, q: Query, w: Walk, i: nat)
    requires g.Valid() && IsAdmissible(g, q, w) && i < |w.edges| && !q.policy.expandTerminalNodes
    ensures w.nodes[i] in g.nodes && g.nodes[w.nodes[i]].kind !in q.policy.terminalKinds
    ensures g.nodes[w.nodes[i]].kind == Pod ==>
      && (q.root.kind == Pod ==> w.nodes[i] == q.root.id)
      && forall k | k in g.edges && k.kind in COMPONENT :: k.from != w.nodes[i] && k.to != w.nodes[i]
  {
    StepsStayWithin(g, q, w, i);
  }

  // ---- Claims of one class ----

  /** Claims that share nothing but a class with the root are not reached through it: a walk that leaves a class goes on at its driver, and
      from there to component pods only. */
  lemma ClassesJoinNoClaims(g: Graph, q: Query, w: Walk, i: nat)
    requires g.Valid() && IsAdmissible(g, q, w) && i + 1 < |w.edges| && w.nodes[i] in g.nodes && g.nodes[w.nodes[i]].kind == StorageClass
    requires w.nodes[i + 1] in g.nodes && g.nodes[w.nodes[i + 1]].kind == CSIDriver
    ensures w.edges[i + 1].from == w.nodes[i + 1] && w.edges[i + 1].kind in {ImplementedByCSIController, ImplementedByCSINodeAgent}
  {
    DriversLeadToTheirComponents(g, q, w, i + 1);
  }
}
