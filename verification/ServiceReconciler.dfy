/** Incremental update of one service: its node and the pods it selects. */
module ServiceReconciler {
  import opened Identity
  import opened GraphModel
  import opened Resources
  import opened Csi
  import opened Builder
  import opened RebuildSections
  import opened Kernel
  import opened KernelLoops
  import opened Changes
  import SR = StorageRefinement
  import PR = PodRefinement

  datatype ServiceApplyResult = ServiceApplyResult(applied: bool, deleted: bool, upsertedEdges: nat, deletedEdges: nat)

  datatype FoundService = TheService(service: KubeService) | NoService

  function FindService(services: seq<KubeService>, namespace: Text, name: Text): FoundService {
    if services == [] then NoService
    else if services[0].meta.namespace == namespace && services[0].meta.name == name then TheService(services[0])
    else FindService(services[1..], namespace, name)
  }

  lemma {:induction false} FindServiceFinds(services: seq<KubeService>, namespace: Text, name: Text)
    ensures FindService(services, namespace, name).TheService? ==>
      var v := FindService(services, namespace, name).service; v in services && v.meta.namespace == namespace && v.meta.name == name
  {
    if services != [] {
      FindServiceFinds(services[1..], namespace, name);
      assert services == [services[0]] + services[1..];
    }
  }

  function SelectedBy(serviceID: CanonicalID): EdgeKey -> bool {
    (k: EdgeKey) => k.from == serviceID && k.kind == SelectsPod
  }

  function NamedService(namespace: Text, name: Text): Node -> bool {
    (n: Node) => n.kind == Service && n.namespace == namespace && n.name == name
  }

  /** The pods the service selects, under their own identifiers. */
  function SelectedF(c: Text, v: KubeService): KubePod -> seq<Edge> {
    (p: KubePod) =>
      if p.meta.namespace == v.meta.namespace && LabelsMatch(v.selector, p.meta.labels)
      then [NewEdge(ServiceID(c, v), PodID(c, p), SelectsPod)] else []
  }

  /** The graph after an update of the named service. */
  ghost function Reconciled(g: Graph, c: Text, s: Snapshot, namespace: Text, name: Text, change: ChangeType): Graph {
    var found := FindService(s.services, namespace, name);
    if namespace == "" || name == "" then g
    else if change == ChangeDelete || found.NoService? then g.WithoutNodes(Doomed(g, NamedService(namespace, name)))
    else
      var v := found.service;
      g.WithNode(ServiceNode(c, v)).WithoutEdges(SelectedBy(ServiceID(c, v))).WithAll([], Flat(s.pods, SelectedF(c, v)))
  }

  lemma SelectionThenNode(g: Graph, gone: set<CanonicalID>, id: CanonicalID)
    ensures g.WithoutNodes(gone).WithoutEdges(SelectedBy(id)).WithoutNodes({id}) == g.WithoutNodes(gone + {id})
  {
    assert g.nodes - gone - {id} == g.nodes - (gone + {id});
  }

  /** How far the deletion has come when the given nodes have been looked at. */
  ghost predicate Progress(g: Graph, now: Graph, seen: seq<Node>, doomed: Node -> bool, gone: set<CanonicalID>, edges: nat, some: bool) {
    Swept(g, seen, doomed, gone) && now == g.WithoutNodes(gone) && (some <==> gone != {}) && (!some ==> edges == 0)
  }

  lemma ProgressBegins(g: Graph, doomed: Node -> bool)
    ensures Progress(g, g, [], doomed, {}, 0, false)
  {
    NothingSwept(g, doomed);
  }

  lemma ProgressMade(g: Graph, now: Graph, seen: seq<Node>, node: Node, doomed: Node -> bool, gone: set<CanonicalID>, edges: nat, some: bool)
    requires g.Valid() && Progress(g, now, seen, doomed, gone, edges, some)
    requires node.id in g.nodes && g.nodes[node.id] == node && node !in seen
    ensures !doomed(node) ==> Progress(g, now, seen + [node], doomed, gone, edges, some)
    ensures doomed(node) ==> forall more: nat ::
      Progress(g, now.WithoutEdges(SelectedBy(node.id)).WithoutNodes({node.id}), seen + [node], doomed, gone + {node.id}, more, true)
  {
    SweptStep(g, seen, node, doomed, gone);
    SelectionThenNode(g, gone, node.id);
    hide Swept, Graph.WithoutEdges, Graph.WithoutNodes, SelectedBy;
  }

  lemma ProgressEnds(g: Graph, now: Graph, listed: seq<Node>, doomed: Node -> bool, gone: set<CanonicalID>, edges: nat, some: bool)
    requires Progress(g, now, listed, doomed, gone, edges, some) && forall id | id in g.nodes :: g.nodes[id] in listed
    ensures now == g.WithoutNodes(Doomed(g, doomed)) && (some <==> Doomed(g, doomed) != {}) && (!some ==> edges == 0)
  {
    SweptAll(g, listed, doomed, gone);
  }

  /** Deletes the selector edges of each service of the name, then the service. */
  method DeleteService(kernel: Kernel, namespace: Text, name: Text) returns (deletedEdges: nat, deletedNode: bool)
    requires kernel.Valid()
    modifies kernel.store
    ensures kernel.Valid()
    ensures kernel.View() == old(kernel.View()).WithoutNodes(Doomed(old(kernel.View()), NamedService(namespace, name)))
    ensures deletedNode <==> Doomed(old(kernel.View()), NamedService(namespace, name)) != {}
    ensures !deletedNode ==> deletedEdges == 0
  {
    hide Kernel.Valid, Kernel.View, Graph.WithoutNodes, Graph.WithoutEdges, Progress, Doomed;
    var listed := kernel.ListNodes();
    ghost var g := kernel.View();
    ghost var gone: set<CanonicalID> := {};
    ghost var doomed := NamedService(namespace, name);
    NothingSwept(g, doomed);
    deletedEdges, deletedNode := 0, false;
    assert Progress(g, kernel.View(), listed[..0], doomed, gone, deletedEdges, deletedNode) by { ProgressBegins(g, doomed); }
    for i := 0 to |listed|
      invariant kernel.Valid() && Progress(g, kernel.View(), listed[..i], doomed, gone, deletedEdges, deletedNode)
    {
      var node := listed[i];
      PrefixStep(listed, i);
      ProgressMade(g, kernel.View(), listed[..i], node, doomed, gone, deletedEdges, deletedNode);
      if node.kind == Service && node.namespace == namespace && node.name == name {
        var deleted := DeleteEdgesWhere(kernel, SelectedBy(node.id));
        kernel.DeleteNode(node.id);
        deletedEdges, deletedNode := deletedEdges + deleted, true;
        gone := gone + {node.id};
        assert Progress(g, kernel.View(), listed[..i + 1], doomed, gone, deletedEdges, deletedNode);
      }
    }
    PrefixEnds(listed);
    ProgressEnds(g, kernel.View(), listed, doomed, gone, deletedEdges, deletedNode);
  }

  method Apply(kernel: Kernel, c: Text, s: Snapshot, namespace: Text, name: Text, change: ChangeType) returns (out: Outcome<ServiceApplyResult>)
    requires kernel.Valid()
    modifies kernel.store
    ensures kernel.Valid() && kernel.View() == Reconciled(old(kernel.View()), c, s, namespace, name, change)
    ensures out.Failed? <==> namespace == "" || name == ""
    ensures out.Done? ==> (out.result.deleted <==> change == ChangeDelete || FindService(s.services, namespace, name).NoService?)
    ensures out.Done? && out.result.deleted ==>
      out.result.upsertedEdges == 0 && (out.result.applied <==> Doomed(old(kernel.View()), NamedService(namespace, name)) != {})
    ensures out.Done? && !out.result.deleted ==>
      out.result.applied && out.result.upsertedEdges == |Flat(s.pods, SelectedF(c, FindService(s.services, namespace, name).service))|
    ensures out.Done? && !out.result.deleted ==>
      var selected := SelectedBy(ServiceID(c, FindService(s.services, namespace, name).service));
      out.result.deletedEdges == |old(kernel.View()).edges| - |old(kernel.View()).WithoutEdges(selected).edges|
  {
    hide Kernel.Valid, Kernel.View, Flat, ToEdges, SelectedF, FindService, ServiceID;
    if namespace == "" || name == "" {
      return Failed("service reconcile requires namespace and name");
    }
    var found := FindService(s.services, namespace, name);
    if change == ChangeDelete || found.NoService? {
      var deletedEdges, deletedNode := DeleteService(kernel, namespace, name);
      return Done(ServiceApplyResult(deletedNode || deletedEdges > 0, true, 0, deletedEdges));
    }
    var id := ServiceID(c, found.service);
    kernel.UpsertNode(ServiceNode(c, found.service));
    var deletedEdges := DeleteEdgesWhere(kernel, SelectedBy(id));
    ghost var cleared := kernel.View();
    var upserted := UpsertEdges(kernel, s.pods, SelectedF(c, found.service));
    NoMoreNodes(cleared, Flat(s.pods, SelectedF(c, found.service)));
    return Done(ServiceApplyResult(true, false, upserted, deletedEdges));
  }

  // ---- Agreement with a full rebuild ----

  ghost predicate DistinctServices(c: Text, services: seq<KubeService>) {
    forall v, w | v in services && w in services && (MetaKey(v.meta) == MetaKey(w.meta) || ServiceID(c, v) == ServiceID(c, w)) :: v == w
  }

  ghost predicate Updates(s: Snapshot, namespace: Text, name: Text, change: ChangeType) {
    namespace != "" && name != "" && change == ChangeUpsert && FindService(s.services, namespace, name).TheService?
  }

  lemma SelectionsAreOwn(c: Text, s: Snapshot, v: KubeService)
    ensures forall e | e in Flat(s.pods, SelectedF(c, v)) :: SelectedBy(ServiceID(c, v))(e.Triple())
  {
    hide ServiceID, PodID, LabelsMatch;
    FlatMembers(s.pods, SelectedF(c, v));
  }

  lemma UpdatedEdges(g: Graph, c: Text, s: Snapshot, namespace: Text, name: Text, change: ChangeType)
    requires Updates(s, namespace, name, change)
    ensures var v := FindService(s.services, namespace, name).service;
            Only(Reconciled(g, c, s, namespace, name, change).edges, SelectedBy(ServiceID(c, v))) == ToEdges(Flat(s.pods, SelectedF(c, v)))
  {
    hide FindService, Flat, SelectedF, ToEdges, ToNodes, ServiceID;
    var v := FindService(s.services, namespace, name).service;
    var es, p := Flat(s.pods, SelectedF(c, v)), SelectedBy(ServiceID(c, v));
    var cleared := g.WithNode(ServiceNode(c, v)).WithoutEdges(p);
    SelectionsAreOwn(c, s, v);
    OnlyUnion(cleared.edges, ToEdges(es), p);
    OnlyAll(es, p);
    assert Only(cleared.edges, p) == map[];
    assert map[] + ToEdges(es) == ToEdges(es);
  }

  /** The rebuild selects through its name maps, which agree with the objects. */
  lemma RebuiltSelection(c: Text, s: Snapshot, v: KubeService)
    requires SR.UniquePods(c, s.pods) && DistinctServices(c, s.services) && v in s.services
    ensures ServiceEdgesF(c, s)(v) == Flat(s.pods, SelectedF(c, v))
  {
    hide ServiceID, PodID, LabelsMatch, Index, SR.UniquePods, Flat;
    var f := SelectEdges(ServiceID(c, v), v, PodIDs(c, s.pods));
    IndexIsExact(s.services, ServiceKeyF(), ServiceIDF(c), v);
    forall p | p in s.pods
      ensures f(p) == SelectedF(c, v)(p)
    {
      SR.UniquePodsAreListed(c, s.pods, p);
    }
    SameFlat(s.pods, f, SelectedF(c, v));
  }

  lemma ServicePass(c: Text, s: Snapshot, v: KubeService)
    requires SR.UniquePods(c, s.pods) && DistinctServices(c, s.services) && v in s.services
    ensures Only(ToEdges(Flat(s.services, ServiceEdgesF(c, s))), SelectedBy(ServiceID(c, v))) == ToEdges(Flat(s.pods, SelectedF(c, v)))
  {
    hide ServiceEdgesF, SelectedF, Only, ToEdges, Flat, ServiceID, SR.UniquePods;
    var p := SelectedBy(ServiceID(c, v));
    forall w | w in s.services
      ensures w != v ==> Only(ToEdges(ServiceEdgesF(c, s)(w)), p) == map[]
      ensures w == v ==> Only(ToEdges(ServiceEdgesF(c, s)(w)), p) == ToEdges(Flat(s.pods, SelectedF(c, v)))
    {
      RebuiltSelection(c, s, w);
      SelectionsAreOwn(c, s, w);
      if w == v {
        OnlyAll(ServiceEdgesF(c, s)(w), p);
      } else {
        OnlyNone(ServiceEdgesF(c, s)(w), p);
      }
    }
    PR.OnlyOne(s.services, ServiceEdgesF(c, s), p, v);
  }

  lemma OtherPassesSelectNothing(c: Text, x: Inferred, s: Snapshot, evidence: seq<Edge>, storage: seq<Edge>, id: CanonicalID)
    requires InferredShape(x) && EdgesIn(evidence, {AffectedByWebhook}) && EdgesIn(storage, STORAGE_EDGES)
    ensures Only(ToEdges(Flat(s.pods, ImageEdgesF(c))), SelectedBy(id)) == map[]
    ensures Only(ToEdges(x.helmEdges), SelectedBy(id)) == map[]
    ensures Only(ToEdges(Flat(s.events, EventEdgesF(c, s))), SelectedBy(id)) == map[]
    ensures Only(ToEdges(Flat(s.pods, PodEdgesF(c, s))), SelectedBy(id)) == map[]
    ensures Only(ToEdges(Flat(s.roleBindings, RoleBindingEdgesF(c, s))), SelectedBy(id)) == map[]
    ensures Only(ToEdges(Flat(s.clusterRoleBindings, ClusterRoleBindingEdgesF(c, s))), SelectedBy(id)) == map[]
    ensures Only(ToEdges(Flat(s.workloads, WorkloadEdgesF(c, s))), SelectedBy(id)) == map[]
    ensures Only(ToEdges(x.controllerEdges), SelectedBy(id)) == map[]
    ensures Only(ToEdges(storage), SelectedBy(id)) == map[] && Only(ToEdges(evidence), SelectedBy(id)) == map[]
  {
    PassKinds(c, s);
    hide Flat, ToEdges, Only, EdgesIn, ImageEdgesF, EventEdgesF, PodEdgesF, RoleBindingEdgesF, ClusterRoleBindingEdgesF, WorkloadEdgesF,
         ServiceEdgesF;
    OnlyNoKind(Flat(s.pods, ImageEdgesF(c)), {UsesImage}, SelectedBy(id));
    OnlyNoKind(x.helmEdges, HELM_EDGES, SelectedBy(id));
    OnlyNoKind(Flat(s.events, EventEdgesF(c, s)), {ReportedByEvent}, SelectedBy(id));
    OnlyNoKind(Flat(s.pods, PodEdgesF(c, s)), POD_EDGES, SelectedBy(id));
    OnlyNoKind(Flat(s.roleBindings, RoleBindingEdgesF(c, s)), {BoundByRoleBinding}, SelectedBy(id));
    OnlyNoKind(Flat(s.clusterRoleBindings, ClusterRoleBindingEdgesF(c, s)), {BoundByRoleBinding}, SelectedBy(id));
    OnlyNoKind(Flat(s.workloads, WorkloadEdgesF(c, s)), {ControlledBy}, SelectedBy(id));
    OnlyNoKind(x.controllerEdges, CONTROLLER_EDGES, SelectedBy(id));
    OnlyNoKind(storage, STORAGE_EDGES, SelectedBy(id));
    OnlyNoKind(evidence, {AffectedByWebhook}, SelectedBy(id));
  }

  lemma RebuiltEdges(c: Text, rules: seq<CSIRule>, x: Inferred, s: Snapshot, order: seq<string>, evidence: seq<Edge>, v: KubeService)
    requires InferredShape(x) && SR.UniquePods(c, s.pods) && DistinctServices(c, s.services) && v in s.services
    requires EdgesIn(evidence, {AffectedByWebhook})
    ensures Only(Rebuilt(c, rules, x, s, order, evidence).edges, SelectedBy(ServiceID(c, v))) == ToEdges(Flat(s.pods, SelectedF(c, v)))
  {
    hide StorageMapsOf, Flat, StorageEdges, BuildDriverNames, BuildNodes, PodsAmong, Rebuilt, ToEdges, Only, EdgesIn, SelectedBy,
         SelectedF, ServiceEdgesF, ServiceID, DistinctServices, SR.UniquePods;
    var id := ServiceID(c, v);
    var storage := StorageEdges(StorageMapsOf(c, rules, s), rules, s, PodsAmong(BuildNodes(c, rules, x, s)), order, BuildDriverNames(c, rules, x, s));
    StorageEdgeKinds(StorageMapsOf(c, rules, s), rules, s, PodsAmong(BuildNodes(c, rules, x, s)), order, BuildDriverNames(c, rules, x, s));
    OnlyRebuilt(c, rules, x, s, order, evidence, SelectedBy(id));
    OtherPassesSelectNothing(c, x, s, evidence, storage, id);
    ServicePass(c, s, v);
    EmptyIsNeutral<EdgeKey, Edge>();
  }

  /** Narrow equals full on selection: from any prior state a service update leaves the service exactly the selects_pod edges a full
      rebuild of the snapshot gives it. */
  lemma ServiceUpdateMatchesRebuild(g: Graph, c: Text, rules: seq<CSIRule>, x: Inferred, s: Snapshot, order: seq<string>,
                                    evidence: seq<Edge>, namespace: Text, name: Text, change: ChangeType)
    requires InferredShape(x) && SR.UniquePods(c, s.pods) && DistinctServices(c, s.services) && EdgesIn(evidence, {AffectedByWebhook})
    requires Updates(s, namespace, name, change)
    ensures var p := SelectedBy(ServiceID(c, FindService(s.services, namespace, name).service));
            Only(Reconciled(g, c, s, namespace, name, change).edges, p) == Only(Rebuilt(c, rules, x, s, order, evidence).edges, p)
  {
    hide Reconciled, Rebuilt, Only, ToEdges, Flat, SelectedBy, FindService;
    FindServiceFinds(s.services, namespace, name);
    UpdatedEdges(g, c, s, namespace, name, change);
    RebuiltEdges(c, rules, x, s, order, evidence, FindService(s.services, namespace, name).service);
  }

  /** The updated service is alone under its name exactly when no service of that name had another identifier before. */
  lemma AloneExactlyWhenNoFormer(g: Graph, c: Text, s: Snapshot, namespace: Text, name: Text, change: ChangeType)
    requires Updates(s, namespace, name, change)
    ensures var id := ServiceID(c, FindService(s.services, namespace, name).service);
            Doomed(Reconciled(g, c, s, namespace, name, change), NamedService(namespace, name)) == {id} <==>
              Doomed(g, NamedService(namespace, name)) <= {id}
  {
    hide FindService, Flat, SelectedF, ToEdges, ServiceID;
    FindServiceFinds(s.services, namespace, name);
    var v := FindService(s.services, namespace, name).service;
    var r := Reconciled(g, c, s, namespace, name, change);
    assert r.nodes == g.nodes[ServiceID(c, v) := ServiceNode(c, v)] + ToNodes([]);
    assert Doomed(r, NamedService(namespace, name)) == Doomed(g, NamedService(namespace, name)) + {ServiceID(c, v)};
  }

  // ---- What an update leaves alone ----

  /** An update changes no edge but the service's own selections; a deletion takes the edges at the services of the name and no other. */
  lemma OtherEdgesSurvive(g: Graph, c: Text, s: Snapshot, namespace: Text, name: Text, change: ChangeType, k: EdgeKey)
    requires namespace != "" && name != ""
    ensures var r := Reconciled(g, c, s, namespace, name, change);
            if Updates(s, namespace, name, change) then
              !SelectedBy(ServiceID(c, FindService(s.services, namespace, name).service))(k) ==>
                (k in r.edges <==> k in g.edges) && (k in r.edges ==> r.edges[k] == g.edges[k])
            else
              var gone := set id | id in g.nodes && g.nodes[id].kind == Service && g.nodes[id].namespace == namespace && g.nodes[id].name == name;
              (k in r.edges <==> k in g.edges && k.from !in gone && k.to !in gone) && (k in r.edges ==> r.edges[k] == g.edges[k])
  {
    assert Doomed(g, NamedService(namespace, name)) ==
      set id | id in g.nodes && g.nodes[id].kind == Service && g.nodes[id].namespace == namespace && g.nodes[id].name == name;
    hide FindService, Flat, SelectedF, ToEdges, ServiceID, Doomed;
    if Updates(s, namespace, name, change) {
      var v := FindService(s.services, namespace, name).service;
      var es := Flat(s.pods, SelectedF(c, v));
      SelectionsAreOwn(c, s, v);
      ToEdgesMembers(es);
      assert Reconciled(g, c, s, namespace, name, change).edges == g.WithoutEdges(SelectedBy(ServiceID(c, v))).edges + ToEdges(es);
    }
  }

  // ---- Services recreated under their name ----

  lemma ServicesBeforeStorage(c: Text, s: Snapshot, n: Node)
    ensures n in NodesBeforeStorage(c, s) && n.kind == Service <==> n in Flat(s.services, ServiceNodeF(c)) && n.kind == Service
  {
    WorkingNodeKinds(c, s);
    hide Flat, Coherent;
  }

  lemma ServicesAmongNodes(c: Text, rules: seq<CSIRule>, x: Inferred, s: Snapshot, n: Node)
    requires InferredShape(x)
    ensures n in BuildNodes(c, rules, x, s) && n.kind == Service <==> exists v | v in s.services :: n == ServiceNode(c, v)
  {
    ServicesBeforeStorage(c, s, n);
    ServiceNodesAre(c, s, n);
    OtherNodesAreNoServices(c, rules, x, s, n);
    hide InferredShape, Flat, NodesBeforeStorage, IdentityNodes, ObservedStorageNodes, SyntheticNodes, ServiceNode, ServiceNodeF, ObservedDriverIDs;
    var a, b, d, e := NodesBeforeStorage(c, s), IdentityNodes(c, s), ObservedStorageNodes(c, s), Flat(s.webhookConfigs, WebhookNodeF(c));
    var f, h := Flat(s.events, EventNodeF(c)), SyntheticNodes(c, rules, ObservedDriverIDs(c, s.csiDrivers), s.storageClasses);
    assert BuildNodes(c, rules, x, s) == a + b + d + e + x.helmNodes + f + h;
    assert n in a + b + d + e + x.helmNodes + f + h <==> n in a || n in b || n in d || n in e || n in x.helmNodes || n in f || n in h;
  }

  lemma OtherNodesAreNoServices(c: Text, rules: seq<CSIRule>, x: Inferred, s: Snapshot, n: Node)
    requires InferredShape(x)
    ensures n.kind == Service ==>
      && n !in IdentityNodes(c, s) && n !in ObservedStorageNodes(c, s) && n !in Flat(s.webhookConfigs, WebhookNodeF(c))
      && n !in x.helmNodes && n !in Flat(s.events, EventNodeF(c))
      && n !in SyntheticNodes(c, rules, ObservedDriverIDs(c, s.csiDrivers), s.storageClasses)
  {
    SnapshotNodeKinds(c, s);
    SyntheticNodeKinds(c, rules, ObservedDriverIDs(c, s.csiDrivers), s.storageClasses);
    hide Flat, Coherent, NodesBeforeStorage, IdentityNodes, ObservedStorageNodes, SyntheticNodes, ObservedDriverIDs;
  }

  lemma ServiceNodesAre(c: Text, s: Snapshot, n: Node)
    ensures n in Flat(s.services, ServiceNodeF(c)) <==> exists v | v in s.services :: n == ServiceNode(c, v)
    ensures forall v :: ServiceNode(c, v).kind == Service
  {
    FlatMembers(s.services, ServiceNodeF(c));
    hide Flat, ServiceID;
    assert forall v :: n in ServiceNodeF(c)(v) <==> n == ServiceNode(c, v);
  }

  /** A full rebuild stores a service under an identifier exactly when a listed service has it. */
  lemma RebuildStoresListedServices(c: Text, rules: seq<CSIRule>, x: Inferred, s: Snapshot, order: seq<string>, evidence: seq<Edge>, id: CanonicalID)
    requires InferredShape(x)
    ensures var full := Rebuilt(c, rules, x, s, order, evidence);
            KindTag(id) == NodeKindName(Service) ==> (id in full.nodes <==> exists v | v in s.services :: ServiceID(c, v) == id)
  {
    var ns := BuildNodes(c, rules, x, s);
    SR.RebuiltNodesOf(c, rules, x, s, order, evidence);
    SR.BuildNodesAreNamed(c, rules, x, s);
    ToNodesMembers(ns);
    hide BuildNodes, ServiceID, Rebuilt, ToNodes, KindTag, NodeKindName, SR.NamedDriver;
    if KindTag(id) == NodeKindName(Service) {
      if id in ToNodes(ns) {
        var n := ToNodes(ns)[id];
        NodeKindNameIsInjective(n.kind, Service);
        ServicesAmongNodes(c, rules, x, s, n);
      }
      forall v | v in s.services && ServiceID(c, v) == id
        ensures id in ToNodes(ns)
      {
        ServicesAmongNodes(c, rules, x, s, ServiceNode(c, v));
        assert ServiceNode(c, v).id == id;
      }
    }
  }

  lemma FormerStays(g: Graph, c: Text, s: Snapshot, namespace: Text, name: Text, change: ChangeType, former: CanonicalID)
    requires Updates(s, namespace, name, change) && former in g.nodes
    requires former != ServiceID(c, FindService(s.services, namespace, name).service)
    ensures var r := Reconciled(g, c, s, namespace, name, change); former in r.nodes && r.nodes[former] == g.nodes[former]
  {
    hide FindService, Flat, SelectedF, ToEdges, ServiceID;
  }

  lemma OthersStay(g: Graph, c: Text, s: Snapshot, namespace: Text, name: Text, change: ChangeType)
    requires Updates(s, namespace, name, change)
    ensures var r, id := Reconciled(g, c, s, namespace, name, change), ServiceID(c, FindService(s.services, namespace, name).service);
            forall k | k in g.edges && !SelectedBy(id)(k) :: k in r.edges && r.edges[k] == g.edges[k]
  {
    hide FindService, ServiceID, Reconciled, SelectedBy, Doomed, NamedService;
    forall k { OtherEdgesSurvive(g, c, s, namespace, name, change, k); }
  }

  /** Unlike a pod update, an upsert keeps every node it does not write: a service recreated under the same name leaves its former
      node, and the edges into and out of it, in place, while a rebuild stores no such node unless the service is still listed. */
  lemma RecreatedServiceKeepsFormer(g: Graph, c: Text, rules: seq<CSIRule>, x: Inferred, s: Snapshot, order: seq<string>, evidence: seq<Edge>,
                                    namespace: Text, name: Text, change: ChangeType, former: CanonicalID)
    requires Updates(s, namespace, name, change) && former in g.nodes && InferredShape(x)
    requires NamedService(namespace, name)(g.nodes[former]) && g.nodes[former].id == former && Coherent(g.nodes[former])
    requires former != ServiceID(c, FindService(s.services, namespace, name).service)
    ensures var r, id := Reconciled(g, c, s, namespace, name, change), ServiceID(c, FindService(s.services, namespace, name).service);
            && former in r.nodes && r.nodes[former] == g.nodes[former]
            && forall k | k in g.edges && TouchesKey(k, former) && !SelectedBy(id)(k) :: k in r.edges && r.edges[k] == g.edges[k]
    ensures former in Rebuilt(c, rules, x, s, order, evidence).nodes <==> exists v | v in s.services :: ServiceID(c, v) == former
  {
    hide FindService, ServiceID, Rebuilt, KindTag, NodeKindName, Reconciled, SelectedBy;
    RebuildStoresListedServices(c, rules, x, s, order, evidence, former);
    FormerStays(g, c, s, namespace, name, change, former);
    OthersStay(g, c, s, namespace, name, change);
  }
}
