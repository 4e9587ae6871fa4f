/** Incremental update of claims, volumes, classes, drivers and the edges between them. */
module StorageReconciler {
  import opened Identity
  import opened Sorting
  import opened GraphModel
  import opened Resources
  import opened Csi
  import opened Builder
  import opened Kernel
  import opened KernelLoops

  predicate IsStorageEdge(kind: EdgeKind) {
    kind in {MountsPVC, BoundToPV, UsesStorageClass, ProvisionedByCSIDriver, ImplementedByCSIController,
             ImplementedByCSINodeAgent, ServedByCSINodeAgent, ManagedByCSIController}
  }

  predicate IsStorageNode(kind: NodeKind) {
    kind in {PVC, PV, StorageClass, CSIDriver}
  }

  function StorageKey(): EdgeKey -> bool { (k: EdgeKey) => IsStorageEdge(k.kind) }

  function CurrentIDs(m: StorageMaps): set<CanonicalID> {
    m.pvcs.Values + m.pvs.Values + m.classes.Values + m.drivers.Values
  }

  function StaleStorage(current: set<CanonicalID>): Node -> bool {
    (n: Node) => IsStorageNode(n.kind) && n.id !in current
  }

  predicate Observed(drivers: seq<KubeNamed>, name: string) {
    exists d | d in drivers :: d.meta.name == name
  }

  /** The reconciler upserts a synthetic driver for every class that needs one, however often it comes up. */
  function SyntheticF(c: Text, rules: seq<CSIRule>, drivers: seq<KubeNamed>): KubeStorageClass -> seq<Node> {
    (sc: KubeStorageClass) =>
      if sc.provisioner != "" && !Observed(drivers, sc.provisioner) && IsCSIProvisioner(sc.provisioner, false, rules)
      then [SyntheticCSIDriverNode(c, sc.provisioner)] else []
  }

  function StorageNodes(c: Text, rules: seq<CSIRule>, s: Snapshot): seq<Node> {
    ObservedStorageNodes(c, s) + Flat(s.storageClasses, SyntheticF(c, rules, s.csiDrivers))
  }

  /** The reconciler takes the pod's own identifier, not the name map. */
  function MountF(c: Text, pvcs: map<string, CanonicalID>): KubePod -> seq<Edge> {
    (p: KubePod) => RefEdges(PodID(c, p), MountsPVC, p.meta.namespace, p.pvcRefs, pvcs)
  }

  function KernelDriverNames(drivers: map<string, CanonicalID>, nodes: NodeMap): map<string, string> {
    map d | d in drivers :: if drivers[d] in nodes then nodes[drivers[d]].name else d
  }

  ghost function Cleared(g: Graph, m: StorageMaps): Graph {
    var kept := g.WithoutEdges(StorageKey());
    kept.WithoutNodes(Doomed(kept, StaleStorage(CurrentIDs(m))))
  }

  function RebuiltStorageEdges(c: Text, rules: seq<CSIRule>, s: Snapshot, m: StorageMaps, order: seq<string>, names: map<string, string>): seq<Edge> {
    Flat(s.pods, MountF(c, m.pvcs)) + StorageEdges(m, rules, s, Flat(s.pods, PodNodeF(c)), order, names)
  }

  /** The graph after a storage update, for a given map order of the drivers. */
  ghost function Reconciled(g: Graph, c: Text, rules: seq<CSIRule>, s: Snapshot, order: seq<string>): Graph {
    var m := StorageMapsOf(c, rules, s);
    var cleared := Cleared(g, m);
    var nodes := cleared.nodes + ToNodes(StorageNodes(c, rules, s));
    Graph(nodes, cleared.edges + ToEdges(RebuiltStorageEdges(c, rules, s, m, order, KernelDriverNames(m.drivers, nodes))))
  }

  datatype ApplyResult = ApplyResult(upsertedEdges: nat, deletedEdges: nat, deletedNodes: nat)

  method UpsertStorageNodes(kernel: Kernel, c: Text, rules: seq<CSIRule>, s: Snapshot)
    requires kernel.Valid()
    modifies kernel.store
    ensures kernel.Valid()
    ensures kernel.View() == old(kernel.View()).(nodes := old(kernel.View()).nodes + ToNodes(StorageNodes(c, rules, s)))
  {
    hide Kernel.Valid, Kernel.View, Flat, ToNodes, PVCNodeF, PVNodeF, StorageClassNodeF, CSIDriverNodeF, SyntheticF;
    ghost var g := kernel.View();
    ghost var ns := Flat(s.pvcs, PVCNodeF(c));
    var _ := UpsertNodes(kernel, s.pvcs, PVCNodeF(c));
    AccumulateNodes(g.nodes, ns, Flat(s.pvs, PVNodeF(c)));
    ns := ns + Flat(s.pvs, PVNodeF(c));
    var _ := UpsertNodes(kernel, s.pvs, PVNodeF(c));
    AccumulateNodes(g.nodes, ns, Flat(s.storageClasses, StorageClassNodeF(c)));
    ns := ns + Flat(s.storageClasses, StorageClassNodeF(c));
    var _ := UpsertNodes(kernel, s.storageClasses, StorageClassNodeF(c));
    AccumulateNodes(g.nodes, ns, Flat(s.csiDrivers, CSIDriverNodeF(c)));
    ns := ns + Flat(s.csiDrivers, CSIDriverNodeF(c));
    var _ := UpsertNodes(kernel, s.csiDrivers, CSIDriverNodeF(c));
    AccumulateNodes(g.nodes, ns, Flat(s.storageClasses, SyntheticF(c, rules, s.csiDrivers)));
    var _ := UpsertNodes(kernel, s.storageClasses, SyntheticF(c, rules, s.csiDrivers));
  }

  /** The loop over the driver map, in map order; each driver's name comes from its node in the kernel. */
  method UpsertDriverEdges(kernel: Kernel, m: StorageMaps, rules: seq<CSIRule>, infraPods: seq<Node>)
    returns (upserted: nat, ghost order: seq<string>)
    requires kernel.Valid()
    modifies kernel.store
    ensures kernel.Valid() && IsEnumeration(order, m.drivers)
    ensures var g, names := old(kernel.View()), KernelDriverNames(m.drivers, old(kernel.View()).nodes);
            var es := Flat(order, DriverEdgesF(m, rules, infraPods, names));
            kernel.View() == g.(edges := g.edges + ToEdges(es)) && upserted == |es|
  {
    hide Kernel.Valid, Kernel.View, ToEdges, InferCSIComponentEdges, Flat, DriverEdgesF, KernelDriverNames, Visited;
    ghost var g := kernel.View();
    ghost var names := KernelDriverNames(m.drivers, g.nodes);
    ghost var f := DriverEdgesF(m, rules, infraPods, names);
    upserted, order := 0, [];
    EmptyFlat([], f);
    var rest := m.drivers.Keys;
    assert Visited([], rest, m.drivers) by { NoneVisited(m.drivers); }
    while rest != {}
      invariant kernel.Valid() && kernel.View() == g.(edges := g.edges + ToEdges(Flat(order, f)))
      invariant Visited(order, rest, m.drivers) && upserted == |Flat(order, f)|
    {
      var d :| d in rest;
      VisitedMore(order, rest, m.drivers, d);
      var node, ok := kernel.GetNode(m.drivers[d]);
      var edges := InferCSIComponentEdges(m.drivers[d], if ok then node.name else d, infraPods, rules);
      assert edges == f(d) by { DriverContributes(m, rules, infraPods, g.nodes, d); }
      OneMoreFlat(order, d, f);
      UpsertEdgeList(kernel, edges);
      AccumulateEdges(g.edges, Flat(order, f), f(d));
      upserted := upserted + |edges|;
      order, rest := order + [d], rest - {d};
    }
    AllVisited(order, m.drivers);
  }

  /** The drivers looked at and those still to come are all there are. */
  ghost predicate Visited(order: seq<string>, rest: set<string>, drivers: map<string, CanonicalID>) {
    rest <= drivers.Keys && Distinct(order) && forall d :: d in order <==> d in drivers && d !in rest
  }

  lemma NoneVisited(drivers: map<string, CanonicalID>)
    ensures Visited([], drivers.Keys, drivers)
  {
  }

  lemma VisitedMore(order: seq<string>, rest: set<string>, drivers: map<string, CanonicalID>, d: string)
    requires Visited(order, rest, drivers) && d in rest
    ensures d in drivers && Visited(order + [d], rest - {d}, drivers)
  {
  }

  lemma AllVisited(order: seq<string>, drivers: map<string, CanonicalID>)
    requires Visited(order, {}, drivers)
    ensures IsEnumeration(order, drivers)
  {
  }

  lemma OneMoreFlat(order: seq<string>, d: string, f: string -> seq<Edge>)
    ensures Flat(order + [d], f) == Flat(order, f) + f(d)
  {
    assert (order + [d])[..|order|] == order;
  }

  lemma DriverContributes(m: StorageMaps, rules: seq<CSIRule>, infraPods: seq<Node>, nodes: NodeMap, d: string)
    requires d in m.drivers
    ensures DriverEdgesF(m, rules, infraPods, KernelDriverNames(m.drivers, nodes))(d) ==
              InferCSIComponentEdges(m.drivers[d], if m.drivers[d] in nodes then nodes[m.drivers[d]].name else d, infraPods, rules)
  {
    hide InferCSIComponentEdges;
  }

  method RebuildStorageEdges(kernel: Kernel, c: Text, rules: seq<CSIRule>, s: Snapshot, m: StorageMaps)
    returns (upserted: nat, ghost order: seq<string>)
    requires kernel.Valid()
    modifies kernel.store
    ensures kernel.Valid() && IsEnumeration(order, m.drivers)
    ensures var g := old(kernel.View());
            var es := RebuiltStorageEdges(c, rules, s, m, order, KernelDriverNames(m.drivers, g.nodes));
            kernel.View() == g.(edges := g.edges + ToEdges(es)) && upserted == |es|
  {
    hide Kernel.Valid, Kernel.View, Flat, ToEdges, IsEnumeration, MountF, PVCEdgesF, PVEdgesF, StorageClassEdgesF, PVComponentEdgesF,
         DriverEdgesF, PodNodeF, KernelDriverNames;
    ghost var g := kernel.View();
    var infraPods := Append([], s.pods, PodNodeF(c));
    ghost var es := Flat(s.pods, MountF(c, m.pvcs));
    upserted := UpsertEdges(kernel, s.pods, MountF(c, m.pvcs));
    ghost var storage := Flat(s.pvcs, PVCEdgesF(m, s));
    AccumulateEdges(g.edges, es, storage);
    var more := UpsertEdges(kernel, s.pvcs, PVCEdgesF(m, s));
    upserted := upserted + more;
    Regroup(g.edges, es, storage, Flat(s.pvs, PVEdgesF(m)));
    storage := storage + Flat(s.pvs, PVEdgesF(m));
    more := UpsertEdges(kernel, s.pvs, PVEdgesF(m));
    upserted := upserted + more;
    Regroup(g.edges, es, storage, Flat(s.storageClasses, StorageClassEdgesF(m)));
    storage := storage + Flat(s.storageClasses, StorageClassEdgesF(m));
    more := UpsertEdges(kernel, s.storageClasses, StorageClassEdgesF(m));
    upserted := upserted + more;
    Regroup(g.edges, es, storage, Flat(s.pvs, PVComponentEdgesF(m, rules, s, infraPods)));
    storage := storage + Flat(s.pvs, PVComponentEdgesF(m, rules, s, infraPods));
    more := UpsertEdges(kernel, s.pvs, PVComponentEdgesF(m, rules, s, infraPods));
    upserted := upserted + more;
    more, order := UpsertDriverEdges(kernel, m, rules, infraPods);
    Regroup(g.edges, es, storage, Flat(order, DriverEdgesF(m, rules, infraPods, KernelDriverNames(m.drivers, g.nodes))));
    upserted := upserted + more;
  }

  lemma Regroup(m: EdgeMap, a: seq<Edge>, b: seq<Edge>, more: seq<Edge>)
    ensures (m + ToEdges(a + b)) + ToEdges(more) == m + ToEdges(a + (b + more))
  {
    hide ToEdges;
    AccumulateEdges(m, a + b, more);
    assert (a + b) + more == a + (b + more);
  }

  method Apply(kernel: Kernel, c: Text, rules: seq<CSIRule>, s: Snapshot) returns (result: ApplyResult, ghost order: seq<string>)
    requires kernel.Valid()
    modifies kernel.store
    ensures kernel.Valid() && IsEnumeration(order, CSIDriverIDs(c, rules, s))
    ensures kernel.View() == Reconciled(old(kernel.View()), c, rules, s, order)
    ensures var g, m := old(kernel.View()), StorageMapsOf(c, rules, s);
            && result.deletedEdges == |g.edges| - |g.WithoutEdges(StorageKey()).edges|
            && result.deletedNodes == |g.nodes| - |Cleared(g, m).nodes|
            && result.upsertedEdges == |RebuiltStorageEdges(c, rules, s, m, order, KernelDriverNames(m.drivers, kernel.View().nodes))|
  {
    hide Kernel.Valid, Kernel.View, IsEnumeration, CSIDriverIDs, StorageNodes, RebuiltStorageEdges, KernelDriverNames, CurrentIDs;
    var m := StorageMapsOf(c, rules, s);
    var deletedEdges := DeleteEdgesWhere(kernel, StorageKey());
    var deletedNodes := DeleteNodesWhere(kernel, StaleStorage(CurrentIDs(m)));
    UpsertStorageNodes(kernel, c, rules, s);
    var upserted;
    upserted, order := RebuildStorageEdges(kernel, c, rules, s, m);
    result := ApplyResult(upserted, deletedEdges, deletedNodes);
  }
}
