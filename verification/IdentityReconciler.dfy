/** Incremental update of service accounts, bindings and the edges between them, and its agreement with a full rebuild. */
module IdentityReconciler {
  import opened Identity
  import opened GraphModel
  import opened Resources
  import opened Csi
  import opened Builder
  import opened RebuildSections
  import opened Kernel
  import opened KernelLoops
  import SR = StorageRefinement

  const IDENTITY_NODES: set<NodeKind> := {ServiceAccount, RoleBinding, ClusterRoleBinding}

  predicate IsIdentityEdge(kind: EdgeKind) {
    kind == UsesServiceAccount || kind == BoundByRoleBinding
  }

  function IdentityKey(): EdgeKey -> bool { (k: EdgeKey) => IsIdentityEdge(k.kind) }

  function CurrentIDs(c: Text, s: Snapshot): set<CanonicalID> {
    ServiceAccountIDs(c, s.serviceAccounts).Values + RoleBindingIDs(c, s.roleBindings).Values
    + ClusterRoleBindingIDs(c, s.clusterRoleBindings).Values
  }

  function StaleIdentity(current: set<CanonicalID>): Node -> bool {
    (n: Node) => (n.kind == ServiceAccount || n.kind == RoleBinding || n.kind == ClusterRoleBinding) && n.id !in current
  }

  /** The reconciler takes the pod's own identifier, not the name map. */
  function AccountF(c: Text, accounts: map<string, CanonicalID>): KubePod -> seq<Edge> {
    (p: KubePod) => ServiceAccountEdges(PodID(c, p), p, accounts)
  }

  function IdentityEdges(c: Text, s: Snapshot): seq<Edge> {
    Flat(s.pods, AccountF(c, ServiceAccountIDs(c, s.serviceAccounts))) + Flat(s.roleBindings, RoleBindingEdgesF(c, s))
    + Flat(s.clusterRoleBindings, ClusterRoleBindingEdgesF(c, s))
  }

  ghost function Cleared(g: Graph, c: Text, s: Snapshot): Graph {
    var kept := g.WithoutEdges(IdentityKey());
    kept.WithoutNodes(Doomed(kept, StaleIdentity(CurrentIDs(c, s))))
  }

  ghost function Reconciled(g: Graph, c: Text, s: Snapshot): Graph {
    Cleared(g, c, s).WithAll(IdentityNodes(c, s), IdentityEdges(c, s))
  }

  datatype ApplyResult = ApplyResult(upsertedEdges: nat, deletedEdges: nat, deletedNodes: nat)

  method UpsertIdentityNodes(kernel: Kernel, c: Text, s: Snapshot)
    requires kernel.Valid()
    modifies kernel.store
    ensures kernel.Valid() && kernel.View() == old(kernel.View()).(nodes := old(kernel.View()).nodes + ToNodes(IdentityNodes(c, s)))
  {
    hide Kernel.Valid, Kernel.View, Flat, ToNodes, ServiceAccountNodeF, RoleBindingNodeF, ClusterRoleBindingNodeF;
    ghost var g := kernel.View();
    ghost var ns := Flat(s.serviceAccounts, ServiceAccountNodeF(c));
    var _ := UpsertNodes(kernel, s.serviceAccounts, ServiceAccountNodeF(c));
    AccumulateNodes(g.nodes, ns, Flat(s.roleBindings, RoleBindingNodeF(c)));
    ns := ns + Flat(s.roleBindings, RoleBindingNodeF(c));
    var _ := UpsertNodes(kernel, s.roleBindings, RoleBindingNodeF(c));
    AccumulateNodes(g.nodes, ns, Flat(s.clusterRoleBindings, ClusterRoleBindingNodeF(c)));
    var _ := UpsertNodes(kernel, s.clusterRoleBindings, ClusterRoleBindingNodeF(c));
  }

  method RebuildIdentityEdges(kernel: Kernel, c: Text, s: Snapshot) returns (upserted: nat)
    requires kernel.Valid()
    modifies kernel.store
    ensures kernel.Valid() && kernel.View() == old(kernel.View()).(edges := old(kernel.View()).edges + ToEdges(IdentityEdges(c, s)))
    ensures upserted == |IdentityEdges(c, s)|
  {
    hide Kernel.Valid, Kernel.View, Flat, ToEdges, AccountF, RoleBindingEdgesF, ClusterRoleBindingEdgesF, ServiceAccountIDs;
    ghost var g := kernel.View();
    var accounts := AccountF(c, ServiceAccountIDs(c, s.serviceAccounts));
    ghost var es := Flat(s.pods, accounts);
    upserted := UpsertEdges(kernel, s.pods, accounts);
    AccumulateEdges(g.edges, es, Flat(s.roleBindings, RoleBindingEdgesF(c, s)));
    es := es + Flat(s.roleBindings, RoleBindingEdgesF(c, s));
    var more := UpsertEdges(kernel, s.roleBindings, RoleBindingEdgesF(c, s));
    upserted := upserted + more;
    AccumulateEdges(g.edges, es, Flat(s.clusterRoleBindings, ClusterRoleBindingEdgesF(c, s)));
    more := UpsertEdges(kernel, s.clusterRoleBindings, ClusterRoleBindingEdgesF(c, s));
    upserted := upserted + more;
  }

  method Apply(kernel: Kernel, c: Text, s: Snapshot) returns (result: ApplyResult)
    requires kernel.Valid()
    modifies kernel.store
    ensures kernel.Valid() && kernel.View() == Reconciled(old(kernel.View()), c, s)
    ensures var g := old(kernel.View());
            && result.deletedEdges == |g.edges| - |g.WithoutEdges(IdentityKey()).edges|
            && result.deletedNodes == |g.nodes| - |Cleared(g, c, s).nodes|
            && result.upsertedEdges == |IdentityEdges(c, s)|
  {
    hide Kernel.Valid, Kernel.View, ToNodes, ToEdges, CurrentIDs, IdentityNodes, IdentityEdges;
    var deletedEdges := DeleteEdgesWhere(kernel, IdentityKey());
    var deletedNodes := DeleteNodesWhere(kernel, StaleIdentity(CurrentIDs(c, s)));
    UpsertIdentityNodes(kernel, c, s);
    var upserted := RebuildIdentityEdges(kernel, c, s);
    result := ApplyResult(upserted, deletedEdges, deletedNodes);
  }

  // ---- Agreement with a full rebuild ----

  lemma KeptNodesAreUpserted(c: Text, s: Snapshot)
    ensures CurrentIDs(c, s) <= ToNodes(IdentityNodes(c, s)).Keys
  {
    ToNodesMembers(IdentityNodes(c, s));
    forall id | id in CurrentIDs(c, s)
      ensures exists n | n in IdentityNodes(c, s) :: n.id == id
    {
      CurrentIsANode(c, s, id);
    }
    hide ToNodes, IdentityNodes, CurrentIDs;
  }

  /** An identifier in a name map belongs to a node of the list the map was made from. */
  lemma IndexedIsANode<T>(xs: seq<T>, key: T -> string, ident: T -> CanonicalID, nodesOf: T -> seq<Node>, id: CanonicalID)
    requires id in Index(xs, key, ident).Values && forall x | x in xs :: |nodesOf(x)| == 1 && nodesOf(x)[0].id == ident(x)
    ensures exists n | n in Flat(xs, nodesOf) :: n.id == id
  {
    IndexMembers(xs, key, ident);
    FlatMembers(xs, nodesOf);
    hide Index, Flat;
    var x :| x in xs && ident(x) == id;
    assert nodesOf(x)[0] in nodesOf(x);
    assert nodesOf(x)[0] in Flat(xs, nodesOf);
  }

  lemma IdentityNodesAreOwn(c: Text)
    ensures forall x :: |ServiceAccountNodeF(c)(x)| == 1 && ServiceAccountNodeF(c)(x)[0].id == ServiceAccountIDF(c)(x)
    ensures forall x :: |RoleBindingNodeF(c)(x)| == 1 && RoleBindingNodeF(c)(x)[0].id == RoleBindingIDF(c)(x)
    ensures forall x :: |ClusterRoleBindingNodeF(c)(x)| == 1 && ClusterRoleBindingNodeF(c)(x)[0].id == ClusterRoleBindingIDF(c)(x)
  {
    hide ServiceAccountID, RoleBindingID, ClusterRoleBindingID;
  }

  lemma CurrentIsANode(c: Text, s: Snapshot, id: CanonicalID)
    requires id in CurrentIDs(c, s)
    ensures exists n | n in IdentityNodes(c, s) :: n.id == id
  {
    IdentityNodesAreOwn(c);
    hide Index, Flat, ServiceAccountNodeF, RoleBindingNodeF, ClusterRoleBindingNodeF, ServiceAccountIDF, RoleBindingIDF, ClusterRoleBindingIDF;
    if id in ServiceAccountIDs(c, s.serviceAccounts).Values {
      IndexedIsANode(s.serviceAccounts, NamedKeyF(), ServiceAccountIDF(c), ServiceAccountNodeF(c), id);
    } else if id in RoleBindingIDs(c, s.roleBindings).Values {
      IndexedIsANode(s.roleBindings, BindingKeyF(), RoleBindingIDF(c), RoleBindingNodeF(c), id);
    } else {
      IndexedIsANode(s.clusterRoleBindings, BindingNameF(), ClusterRoleBindingIDF(c), ClusterRoleBindingNodeF(c), id);
    }
  }

  lemma UpdatedNodes(g: Graph, c: Text, s: Snapshot)
    requires g.Valid()
    ensures OfKind(Reconciled(g, c, s).nodes, IDENTITY_NODES) == ToNodes(IdentityNodes(c, s))
  {
    hide IdentityNodes, IdentityEdges, CurrentIDs, ToNodes, ToEdges, Coherent, Flat;
    PassiveNodeKinds(c, s);
    KeptNodesAreUpserted(c, s);
    ToNodesMembers(IdentityNodes(c, s));
    var cleared := Cleared(g, c, s);
    forall id | id in cleared.nodes && id !in ToNodes(IdentityNodes(c, s))
      ensures cleared.nodes[id].kind !in IDENTITY_NODES
    {
    }
    hide Cleared;
  }

  lemma OtherNodesAreNotIdentity(c: Text, rules: seq<CSIRule>, x: Inferred, s: Snapshot)
    requires InferredShape(x)
    ensures Tagged(ToNodes(NodesBeforeStorage(c, s)), IDENTITY_NODES) == map[]
    ensures Tagged(ToNodes(ObservedStorageNodes(c, s)), IDENTITY_NODES) == map[]
    ensures Tagged(ToNodes(Flat(s.webhookConfigs, WebhookNodeF(c))), IDENTITY_NODES) == map[]
    ensures Tagged(ToNodes(x.helmNodes), IDENTITY_NODES) == map[]
    ensures Tagged(ToNodes(Flat(s.events, EventNodeF(c))), IDENTITY_NODES) == map[]
    ensures Tagged(ToNodes(SyntheticNodes(c, rules, ObservedDriverIDs(c, s.csiDrivers), s.storageClasses)), IDENTITY_NODES) == map[]
  {
    SnapshotNodeKinds(c, s);
    SyntheticNodeKinds(c, rules, ObservedDriverIDs(c, s.csiDrivers), s.storageClasses);
    hide NodesIn, ToNodes, Tagged, NodesBeforeStorage, ObservedStorageNodes, Flat, SyntheticNodes, ObservedDriverIDs;
    TaggedNone(NodesBeforeStorage(c, s), {Workload, Pod, Image, NodeKindNode, Service, ConfigMap, Secret}, IDENTITY_NODES);
    TaggedNone(ObservedStorageNodes(c, s), {PVC, PV, StorageClass, CSIDriver}, IDENTITY_NODES);
    TaggedNone(Flat(s.webhookConfigs, WebhookNodeF(c)), {WebhookConfig}, IDENTITY_NODES);
    TaggedNone(x.helmNodes, {HelmRelease, HelmChart}, IDENTITY_NODES);
    TaggedNone(Flat(s.events, EventNodeF(c)), {Event}, IDENTITY_NODES);
    TaggedNone(SyntheticNodes(c, rules, ObservedDriverIDs(c, s.csiDrivers), s.storageClasses), {CSIDriver}, IDENTITY_NODES);
  }

  lemma RebuiltNodes(c: Text, rules: seq<CSIRule>, x: Inferred, s: Snapshot)
    requires InferredShape(x)
    ensures OfKind(ToNodes(BuildNodes(c, rules, x, s)), IDENTITY_NODES) == ToNodes(IdentityNodes(c, s))
  {
    SnapshotNodeKinds(c, s);
    hide NodesIn, ToNodes, Tagged, OfKind, NodesBeforeStorage, IdentityNodes, ObservedStorageNodes, Flat, SyntheticNodes,
         ObservedDriverIDs, BuildNodes;
    TaggedBuild(c, rules, x, s, IDENTITY_NODES);
    SR.BuildNodesAreTagged(c, rules, x, s);
    OtherNodesAreNotIdentity(c, rules, x, s);
    TaggedAll(IdentityNodes(c, s), IDENTITY_NODES, IDENTITY_NODES);
    EmptyIsNeutral<CanonicalID, Node>();
  }

  lemma NoIdentityEdgesLeft(g: Graph, c: Text, s: Snapshot)
    ensures Only(Cleared(g, c, s).edges, IdentityKey()) == map[]
  {
    hide CurrentIDs, Doomed;
  }

  lemma AccountsAreIdentity(c: Text, pods: seq<KubePod>, accounts: map<string, CanonicalID>)
    ensures EdgesIn(Flat(pods, AccountF(c, accounts)), {UsesServiceAccount})
  {
    hide Flat, PodID, NsName;
    FlatEdgesIn(pods, AccountF(c, accounts), {UsesServiceAccount});
  }

  lemma UpsertedAreIdentity(c: Text, s: Snapshot)
    ensures EdgesIn(IdentityEdges(c, s), {UsesServiceAccount, BoundByRoleBinding})
  {
    hide Flat, AccountF, ServiceAccountIDs, RoleBindingEdgesF, ClusterRoleBindingEdgesF;
    PassKinds(c, s);
    AccountsAreIdentity(c, s.pods, ServiceAccountIDs(c, s.serviceAccounts));
  }

  lemma UpdatedEdges(g: Graph, c: Text, s: Snapshot)
    ensures Only(Reconciled(g, c, s).edges, IdentityKey()) == ToEdges(IdentityEdges(c, s))
  {
    hide IdentityEdges, IdentityNodes, Cleared, ToEdges, ToNodes, Only;
    NoIdentityEdgesLeft(g, c, s);
    UpsertedAreIdentity(c, s);
    OnlyUnion(Cleared(g, c, s).edges, ToEdges(IdentityEdges(c, s)), IdentityKey());
    OnlyAll(IdentityEdges(c, s), IdentityKey());
    assert map[] + ToEdges(IdentityEdges(c, s)) == ToEdges(IdentityEdges(c, s));
  }

  lemma OtherPassesAreNotIdentity(c: Text, x: Inferred, s: Snapshot, evidence: seq<Edge>, storage: seq<Edge>)
    requires InferredShape(x) && EdgesIn(evidence, {AffectedByWebhook}) && EdgesIn(storage, STORAGE_EDGES)
    ensures Only(ToEdges(Flat(s.pods, ImageEdgesF(c))), IdentityKey()) == map[]
    ensures Only(ToEdges(x.helmEdges), IdentityKey()) == map[]
    ensures Only(ToEdges(Flat(s.events, EventEdgesF(c, s))), IdentityKey()) == map[]
    ensures Only(ToEdges(Flat(s.workloads, WorkloadEdgesF(c, s))), IdentityKey()) == map[]
    ensures Only(ToEdges(x.controllerEdges), IdentityKey()) == map[]
    ensures Only(ToEdges(storage), IdentityKey()) == map[]
    ensures Only(ToEdges(Flat(s.services, ServiceEdgesF(c, s))), IdentityKey()) == map[]
    ensures Only(ToEdges(evidence), IdentityKey()) == map[]
  {
    PassKinds(c, s);
    hide Flat, ToEdges, Only, EdgesIn, ImageEdgesF, EventEdgesF, PodEdgesF, RoleBindingEdgesF, ClusterRoleBindingEdgesF, WorkloadEdgesF,
         ServiceEdgesF;
    OnlyNoKind(Flat(s.pods, ImageEdgesF(c)), {UsesImage}, IdentityKey());
    OnlyNoKind(x.helmEdges, HELM_EDGES, IdentityKey());
    OnlyNoKind(Flat(s.events, EventEdgesF(c, s)), {ReportedByEvent}, IdentityKey());
    OnlyNoKind(Flat(s.workloads, WorkloadEdgesF(c, s)), {ControlledBy}, IdentityKey());
    OnlyNoKind(x.controllerEdges, CONTROLLER_EDGES, IdentityKey());
    OnlyNoKind(storage, STORAGE_EDGES, IdentityKey());
    OnlyNoKind(Flat(s.services, ServiceEdgesF(c, s)), {SelectsPod}, IdentityKey());
    OnlyNoKind(evidence, {AffectedByWebhook}, IdentityKey());
  }

  lemma BindingPassesAreIdentity(c: Text, s: Snapshot)
    ensures var rb, crb := ToEdges(Flat(s.roleBindings, RoleBindingEdgesF(c, s))), ToEdges(Flat(s.clusterRoleBindings, ClusterRoleBindingEdgesF(c, s)));
            Only(rb, IdentityKey()) == rb && Only(crb, IdentityKey()) == crb
  {
    PassKinds(c, s);
    hide Flat, ToEdges;
    OnlyAll(Flat(s.roleBindings, RoleBindingEdgesF(c, s)), IdentityKey());
    OnlyAll(Flat(s.clusterRoleBindings, ClusterRoleBindingEdgesF(c, s)), IdentityKey());
  }

  lemma AccountsOfPod(m: PodMaps, id: CanonicalID, pod: KubePod)
    ensures Only(ToEdges(PodEdges(m, id, pod)), IdentityKey()) == ToEdges(ServiceAccountEdges(id, pod, m.accounts))
  {
    hide PodTargets, ToEdges, Only, PodEdges, RefEdges, OwnerEdges;
    OnlyPodEdges(m, id, pod, IdentityKey());
    OnlyNone(ScheduledEdges(id, pod, m.nodes), IdentityKey());
    OnlyNone(RefEdges(id, UsesConfigMap, pod.meta.namespace, pod.configMapRefs, m.configMaps), IdentityKey());
    OnlyNone(RefEdges(id, UsesSecret, pod.meta.namespace, pod.secretRefs, m.secrets), IdentityKey());
    OnlyNone(RefEdges(id, MountsPVC, pod.meta.namespace, pod.pvcRefs, m.pvcs), IdentityKey());
    OnlyAll(ServiceAccountEdges(id, pod, m.accounts), IdentityKey());
    OnlyNone(OwnerEdges(id, PodTargets(m, pod)), IdentityKey());
    EmptyIsNeutral<EdgeKey, Edge>();
  }

  lemma AccountsOfRebuild(c: Text, s: Snapshot)
    requires SR.UniquePods(c, s.pods)
    ensures Only(ToEdges(Flat(s.pods, PodEdgesF(c, s))), IdentityKey()) ==
            ToEdges(Flat(s.pods, AccountF(c, ServiceAccountIDs(c, s.serviceAccounts))))
  {
    var m, ids := PodMapsOf(c, s), PodIDs(c, s.pods);
    var h := AccountF(c, ServiceAccountIDs(c, s.serviceAccounts));
    forall pod | pod in s.pods
      ensures Only(ToEdges(PodEdgesF(c, s)(pod)), IdentityKey()) == ToEdges(h(pod))
    {
      SR.UniquePodsAreListed(c, s.pods, pod);
      AccountsOfPod(m, PodID(c, pod), pod);
    }
    hide PodMapsOf, PodIDs, PodID, ServiceAccountIDs, Only, ToEdges;
    OnlyFlat(s.pods, PodEdgesF(c, s), IdentityKey(), h);
  }

  lemma RebuiltEdges(c: Text, rules: seq<CSIRule>, x: Inferred, s: Snapshot, order: seq<string>, evidence: seq<Edge>)
    requires InferredShape(x) && SR.UniquePods(c, s.pods) && EdgesIn(evidence, {AffectedByWebhook})
    ensures Only(Rebuilt(c, rules, x, s, order, evidence).edges, IdentityKey()) == ToEdges(IdentityEdges(c, s))
  {
    var storage := StorageEdges(StorageMapsOf(c, rules, s), rules, s, PodsAmong(BuildNodes(c, rules, x, s)), order, BuildDriverNames(c, rules, x, s));
    StorageEdgeKinds(StorageMapsOf(c, rules, s), rules, s, PodsAmong(BuildNodes(c, rules, x, s)), order, BuildDriverNames(c, rules, x, s));
    OnlyRebuilt(c, rules, x, s, order, evidence, IdentityKey());
    hide StorageMapsOf, Flat, StorageEdges, BuildDriverNames, BuildNodes, PodsAmong, Rebuilt, ToEdges, Only, EdgesIn, AccountF,
         RoleBindingEdgesF, ClusterRoleBindingEdgesF;
    OtherPassesAreNotIdentity(c, x, s, evidence, storage);
    AccountsOfRebuild(c, s);
    BindingPassesAreIdentity(c, s);
    var pods := Flat(s.pods, AccountF(c, ServiceAccountIDs(c, s.serviceAccounts)));
    var rb, crb := Flat(s.roleBindings, RoleBindingEdgesF(c, s)), Flat(s.clusterRoleBindings, ClusterRoleBindingEdgesF(c, s));
    ToEdgesAppend(pods, rb);
    ToEdgesAppend(pods + rb, crb);
    EmptyIsNeutral<EdgeKey, Edge>();
  }

  /** Narrow equals full on identity and security: from any prior state an update leaves exactly the rebuild's accounts,
      bindings and edges between them, with subject namespaces defaulted alike. */
  lemma IdentityUpdateMatchesRebuild(g: Graph, c: Text, rules: seq<CSIRule>, x: Inferred, s: Snapshot,
                                     order: seq<string>, evidence: seq<Edge>)
    requires g.Valid() && InferredShape(x) && SR.UniquePods(c, s.pods) && EdgesIn(evidence, {AffectedByWebhook})
    ensures var narrow, full := Reconciled(g, c, s), Rebuilt(c, rules, x, s, order, evidence);
            && OfKind(narrow.nodes, IDENTITY_NODES) == OfKind(full.nodes, IDENTITY_NODES)
            && Only(narrow.edges, IdentityKey()) == Only(full.edges, IdentityKey())
  {
    UpdatedNodes(g, c, s);
    RebuiltNodes(c, rules, x, s);
    SR.RebuiltNodesOf(c, rules, x, s, order, evidence);
    UpdatedEdges(g, c, s);
    RebuiltEdges(c, rules, x, s, order, evidence);
    hide Reconciled, Rebuilt, OfKind, Only, BuildNodes, IdentityNodes, IdentityEdges, ToNodes, ToEdges;
  }

  // ---- What an update leaves alone ----

  /** Edges of other kinds survive exactly when they touch no stale account or binding. */
  lemma OtherEdgesSurvive(g: Graph, c: Text, s: Snapshot, k: EdgeKey)
    requires g.Valid() && !IsIdentityEdge(k.kind)
    ensures var r, current := Reconciled(g, c, s), CurrentIDs(c, s);
            var gone := set id | id in g.nodes && g.nodes[id].kind in {ServiceAccount, RoleBinding, ClusterRoleBinding} && g.nodes[id].id !in current;
            && (k in r.edges <==> k in g.edges && k.from !in gone && k.to !in gone)
            && (k in r.edges ==> r.edges[k] == g.edges[k])
  {
    hide IdentityEdges, IdentityNodes, CurrentIDs;
    UpsertedAreIdentity(c, s);
    ToEdgesMembers(IdentityEdges(c, s));
    hide ToEdges, ToNodes;
    assert Doomed(g.WithoutEdges(IdentityKey()), StaleIdentity(CurrentIDs(c, s))) == Doomed(g, StaleIdentity(CurrentIDs(c, s)));
    assert Doomed(g, StaleIdentity(CurrentIDs(c, s))) ==
      set id | id in g.nodes && g.nodes[id].kind in {ServiceAccount, RoleBinding, ClusterRoleBinding} && g.nodes[id].id !in CurrentIDs(c, s);
  }
}
