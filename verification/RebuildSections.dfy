/** How the full rebuild restricts to a scope: section by section. */
module RebuildSections {
  import opened Identity
  import opened GraphModel
  import opened Resources
  import opened OwnerChain
  import opened Csi
  import opened Builder

  ghost predicate EdgesIn(es: seq<Edge>, kinds: set<EdgeKind>) {
    forall e | e in es :: e.kind in kinds
  }

  /** Nodes of the given kinds whose identifiers were made for their kinds. */
  ghost predicate NodesIn(ns: seq<Node>, kinds: set<NodeKind>) {
    forall n | n in ns :: Coherent(n) && n.kind in kinds
  }

  const HELM_EDGES: set<EdgeKind> := {ManagedByHelmRelease, InstallsChart}
  const CONTROLLER_EDGES: set<EdgeKind> := {ManagedByController, ServedByNodeDaemon}

  /** What is relied on of the inference modules outside this model: the kinds they produce. */
  ghost predicate InferredShape(x: Inferred) {
    NodesIn(x.helmNodes, {HelmRelease, HelmChart}) && EdgesIn(x.helmEdges, HELM_EDGES) && EdgesIn(x.controllerEdges, CONTROLLER_EDGES)
  }

  lemma OnlyAppend(a: seq<Edge>, b: seq<Edge>, p: EdgeKey -> bool)
    ensures Only(ToEdges(a + b), p) == Only(ToEdges(a), p) + Only(ToEdges(b), p)
  {
    ToEdgesAppend(a, b);
    OnlyUnion(ToEdges(a), ToEdges(b), p);
  }

  lemma OnlyEmpty(p: EdgeKey -> bool)
    ensures Only(ToEdges([]), p) == map[]
  {
  }

  lemma OnlyNoKind(es: seq<Edge>, kinds: set<EdgeKind>, p: EdgeKey -> bool)
    requires EdgesIn(es, kinds) && forall k | p(k) :: k.kind !in kinds
    ensures Only(ToEdges(es), p) == map[]
  {
    OnlyNone(es, p);
  }

  lemma FlatEdgesIn<A>(xs: seq<A>, f: A -> seq<Edge>, kinds: set<EdgeKind>)
    requires forall x | x in xs :: EdgesIn(f(x), kinds)
    ensures EdgesIn(Flat(xs, f), kinds)
  {
    FlatMembers(xs, f);
  }

  lemma FlatNodesIn<A>(xs: seq<A>, f: A -> seq<Node>, kinds: set<NodeKind>)
    requires forall x | x in xs :: NodesIn(f(x), kinds)
    ensures NodesIn(Flat(xs, f), kinds)
  {
    FlatMembers(xs, f);
  }

  // ---- Edges ----

  const POD_EDGES: set<EdgeKind> := {ScheduledOn, UsesConfigMap, UsesSecret, MountsPVC, UsesServiceAccount, ManagedBy, OwnsPod}

  /** The kinds each pass over the snapshot produces. */
  lemma PassKinds(c: Text, s: Snapshot)
    ensures EdgesIn(Flat(s.pods, ImageEdgesF(c)), {UsesImage})
    ensures EdgesIn(Flat(s.events, EventEdgesF(c, s)), {ReportedByEvent})
    ensures EdgesIn(Flat(s.pods, PodEdgesF(c, s)), POD_EDGES)
    ensures EdgesIn(Flat(s.roleBindings, RoleBindingEdgesF(c, s)), {BoundByRoleBinding})
    ensures EdgesIn(Flat(s.clusterRoleBindings, ClusterRoleBindingEdgesF(c, s)), {BoundByRoleBinding})
    ensures EdgesIn(Flat(s.workloads, WorkloadEdgesF(c, s)), {ControlledBy})
    ensures EdgesIn(Flat(s.services, ServiceEdgesF(c, s)), {SelectsPod})
  {
    hide EventTargets, PodMapsOf, PodIDs, RoleBindingIDs, ClusterRoleBindingIDs, ServiceAccountIDs, ServiceIDs, NewChainResolver,
         WorkloadID, PodID, EventID, ResolveReferences;
    FlatEdgesIn(s.pods, ImageEdgesF(c), {UsesImage});
    FlatEdgesIn(s.events, EventEdgesF(c, s), {ReportedByEvent});
    forall m, id, p {:trigger PodEdges(m, id, p)} { PodEdgeKinds(m, id, p); }
    FlatEdgesIn(s.pods, PodEdgesF(c, s), POD_EDGES);
    FlatEdgesIn(s.roleBindings, RoleBindingEdgesF(c, s), {BoundByRoleBinding});
    FlatEdgesIn(s.clusterRoleBindings, ClusterRoleBindingEdgesF(c, s), {BoundByRoleBinding});
    FlatEdgesIn(s.workloads, WorkloadEdgesF(c, s), {ControlledBy});
    forall v | v in s.services
      ensures EdgesIn(ServiceEdgesF(c, s)(v), {SelectsPod})
    {
      if MetaKey(v.meta) in ServiceIDs(c, s.services) {
        FlatEdgesIn(s.pods, SelectEdges(ServiceIDs(c, s.services)[MetaKey(v.meta)], v, PodIDs(c, s.pods)), {SelectsPod});
      }
    }
    FlatEdgesIn(s.services, ServiceEdgesF(c, s), {SelectsPod});
  }

  lemma PodEdgeKinds(m: PodMaps, id: CanonicalID, p: KubePod)
    ensures EdgesIn(PodEdges(m, id, p), POD_EDGES)
  {
    hide PodTargets;
  }

  const STORAGE_EDGES: set<EdgeKind> := {
    BoundToPV, UsesStorageClass, ProvisionedByCSIDriver, ImplementedByCSIController, ImplementedByCSINodeAgent,
    ServedByCSINodeAgent, ManagedByCSIController}

  lemma CorrelationKinds(rule: CSIRule, pvID: CanonicalID, names: seq<string>, infraPods: seq<Node>)
    ensures EdgesIn(CorrelatePVToCSIComponents(rule, pvID, names, infraPods), {ManagedByCSIController, ServedByCSINodeAgent})
  {
    hide NormalizeNodeNames, IsController, IsAgent;
    var kinds := {ManagedByCSIController, ServedByCSINodeAgent};
    forall affinity
      ensures EdgesIn(Correlate(rule, pvID, affinity, infraPods), kinds)
    {
      FlatEdgesIn(infraPods, PodCorrelation(rule, pvID, affinity), kinds);
    }
    var all := Flat(NormalizeNodeNames(names), CorrelateOn(rule, pvID, infraPods));
    FlatEdgesIn(NormalizeNodeNames(names), CorrelateOn(rule, pvID, infraPods), kinds);
    FirstPerKeyIsPart(all);
  }

  lemma {:induction false} FirstPerKeyIsPart(es: seq<Edge>)
    ensures forall e | e in FirstPerKey(es) :: e in es
  {
    if es != [] {
      FirstPerKeyIsPart(es[..|es| - 1]);
      assert es == es[..|es| - 1] + [es[|es| - 1]];
    }
  }

  lemma DriverEdgeKinds(driverID: CanonicalID, name: string, infraPods: seq<Node>, rules: seq<CSIRule>)
    ensures EdgesIn(InferCSIComponentEdges(driverID, name, infraPods, rules), {ImplementedByCSIController, ImplementedByCSINodeAgent})
    ensures forall e | e in InferCSIComponentEdges(driverID, name, infraPods, rules) :: e.from == driverID
  {
    hide IsController, IsAgent;
    match RuleForDriver(name, rules)
    case NoRule =>
    case Rule(rule) => FlatMembers(infraPods, DriverComponent(rule, driverID));
  }

  lemma StorageEdgeKinds(m: StorageMaps, rules: seq<CSIRule>, s: Snapshot, infraPods: seq<Node>, order: seq<string>, names: map<string, string>)
    ensures EdgesIn(StorageEdges(m, rules, s, infraPods, order, names), STORAGE_EDGES)
  {
    hide CorrelatePVToCSIComponents, InferCSIComponentEdges, AgentNodeNames, StorageClassNameForPVC;
    FlatEdgesIn(s.pvcs, PVCEdgesF(m, s), STORAGE_EDGES);
    FlatEdgesIn(s.pvs, PVEdgesF(m), STORAGE_EDGES);
    FlatEdgesIn(s.storageClasses, StorageClassEdgesF(m), STORAGE_EDGES);
    forall rule, id, ns {:trigger CorrelatePVToCSIComponents(rule, id, ns, infraPods)} { CorrelationKinds(rule, id, ns, infraPods); }
    FlatEdgesIn(s.pvs, PVComponentEdgesF(m, rules, s, infraPods), STORAGE_EDGES);
    forall id, name {:trigger InferCSIComponentEdges(id, name, infraPods, rules)} { DriverEdgeKinds(id, name, infraPods, rules); }
    FlatEdgesIn(order, DriverEdgesF(m, rules, infraPods, names), STORAGE_EDGES);
  }

  lemma EvidenceKinds(evidence: seq<Edge>, blocked: seq<CanonicalID>, webhooks: set<CanonicalID>)
    requires IsEvidence(evidence, blocked, webhooks)
    ensures EdgesIn(evidence, {AffectedByWebhook})
  {
    forall e | e in evidence
      ensures e.kind == AffectedByWebhook
    {
      var i :| 0 <= i < |evidence| && evidence[i] == e;
    }
  }

  /** The rebuild restricted to a scope is the sum of its passes restricted to the scope. */
  lemma OnlyRebuilt(c: Text, rules: seq<CSIRule>, x: Inferred, s: Snapshot, order: seq<string>, evidence: seq<Edge>, p: EdgeKey -> bool)
    ensures var storage := StorageEdges(StorageMapsOf(c, rules, s), rules, s, PodsAmong(BuildNodes(c, rules, x, s)), order,
                                        BuildDriverNames(c, rules, x, s));
            Only(Rebuilt(c, rules, x, s, order, evidence).edges, p) ==
              Only(ToEdges(Flat(s.pods, ImageEdgesF(c))), p) + Only(ToEdges(x.helmEdges), p)
              + Only(ToEdges(Flat(s.events, EventEdgesF(c, s))), p) + Only(ToEdges(Flat(s.pods, PodEdgesF(c, s))), p)
              + Only(ToEdges(Flat(s.roleBindings, RoleBindingEdgesF(c, s))), p)
              + Only(ToEdges(Flat(s.clusterRoleBindings, ClusterRoleBindingEdgesF(c, s))), p)
              + Only(ToEdges(Flat(s.workloads, WorkloadEdgesF(c, s))), p) + Only(ToEdges(x.controllerEdges), p)
              + Only(ToEdges(storage), p) + Only(ToEdges(Flat(s.services, ServiceEdgesF(c, s))), p) + Only(ToEdges(evidence), p)
  {
    hide Flat, ToEdges, Only, ImageEdgesF, EventEdgesF, PodEdgesF, RoleBindingEdgesF, ClusterRoleBindingEdgesF, WorkloadEdgesF,
         ServiceEdgesF, StorageEdges, StorageMapsOf, BuildNodes, BuildDriverNames, PodsAmong;
    var storage := StorageEdges(StorageMapsOf(c, rules, s), rules, s, PodsAmong(BuildNodes(c, rules, x, s)), order,
                                BuildDriverNames(c, rules, x, s));
    var a := Flat(s.pods, ImageEdgesF(c));
    OnlyAppend(a, x.helmEdges, p);
    a := a + x.helmEdges;
    OnlyAppend(a, Flat(s.events, EventEdgesF(c, s)), p);
    a := a + Flat(s.events, EventEdgesF(c, s));
    OnlyAppend(a, Flat(s.pods, PodEdgesF(c, s)), p);
    a := a + Flat(s.pods, PodEdgesF(c, s));
    OnlyAppend(a, Flat(s.roleBindings, RoleBindingEdgesF(c, s)), p);
    a := a + Flat(s.roleBindings, RoleBindingEdgesF(c, s));
    OnlyAppend(a, Flat(s.clusterRoleBindings, ClusterRoleBindingEdgesF(c, s)), p);
    a := a + Flat(s.clusterRoleBindings, ClusterRoleBindingEdgesF(c, s));
    OnlyAppend(a, Flat(s.workloads, WorkloadEdgesF(c, s)), p);
    a := a + Flat(s.workloads, WorkloadEdgesF(c, s));
    OnlyAppend(a, x.controllerEdges, p);
    a := a + x.controllerEdges;
    OnlyAppend(a, storage, p);
    a := a + storage;
    OnlyAppend(a, Flat(s.services, ServiceEdgesF(c, s)), p);
    a := a + Flat(s.services, ServiceEdgesF(c, s));
    OnlyAppend(a, evidence, p);
    assert BuildEdges(c, rules, x, s, order, evidence) == a + evidence;
    assert map[] + ToEdges(a + evidence) == ToEdges(a + evidence);
  }

  /** One pod's edges restricted to a scope. */
  lemma OnlyPodEdges(m: PodMaps, id: CanonicalID, pod: KubePod, p: EdgeKey -> bool)
    ensures Only(ToEdges(PodEdges(m, id, pod)), p) ==
              Only(ToEdges(ScheduledEdges(id, pod, m.nodes)), p)
              + Only(ToEdges(RefEdges(id, UsesConfigMap, pod.meta.namespace, pod.configMapRefs, m.configMaps)), p)
              + Only(ToEdges(RefEdges(id, UsesSecret, pod.meta.namespace, pod.secretRefs, m.secrets)), p)
              + Only(ToEdges(RefEdges(id, MountsPVC, pod.meta.namespace, pod.pvcRefs, m.pvcs)), p)
              + Only(ToEdges(ServiceAccountEdges(id, pod, m.accounts)), p)
              + Only(ToEdges(OwnerEdges(id, PodTargets(m, pod))), p)
  {
    hide ToEdges, Only, ScheduledEdges, RefEdges, ServiceAccountEdges, OwnerEdges, PodTargets;
    var a := ScheduledEdges(id, pod, m.nodes);
    var cm := RefEdges(id, UsesConfigMap, pod.meta.namespace, pod.configMapRefs, m.configMaps);
    var secrets := RefEdges(id, UsesSecret, pod.meta.namespace, pod.secretRefs, m.secrets);
    var pvcs := RefEdges(id, MountsPVC, pod.meta.namespace, pod.pvcRefs, m.pvcs);
    OnlyAppend(a, cm, p);
    OnlyAppend(a + cm, secrets, p);
    OnlyAppend(a + cm + secrets, pvcs, p);
    OnlyAppend(a + cm + secrets + pvcs, ServiceAccountEdges(id, pod, m.accounts), p);
    OnlyAppend(a + cm + secrets + pvcs + ServiceAccountEdges(id, pod, m.accounts), OwnerEdges(id, PodTargets(m, pod)), p);
  }

  // ---- Nodes ----

  lemma WorkingNodeKinds(c: Text, s: Snapshot)
    ensures NodesIn(Flat(s.workloads, WorkloadNodeF(c)), {Workload}) && NodesIn(Flat(s.pods, PodAndImagesF(c)), {Pod, Image})
    ensures NodesIn(Flat(s.nodes, KubeNodeF(c)), {NodeKindNode}) && NodesIn(Flat(s.services, ServiceNodeF(c)), {Service})
    ensures NodesIn(Flat(s.configMaps, ConfigMapNodeF(c)), {ConfigMap}) && NodesIn(Flat(s.secrets, SecretNodeF(c)), {Secret})
  {
    hide ResourceID, KindTag, NodeKindName;
    FlatNodesIn(s.workloads, WorkloadNodeF(c), {Workload});
    forall images { ImageNodeKinds(c, images); }
    FlatNodesIn(s.pods, PodAndImagesF(c), {Pod, Image});
    FlatNodesIn(s.nodes, KubeNodeF(c), {NodeKindNode});
    FlatNodesIn(s.services, ServiceNodeF(c), {Service});
    FlatNodesIn(s.configMaps, ConfigMapNodeF(c), {ConfigMap});
    FlatNodesIn(s.secrets, SecretNodeF(c), {Secret});
  }

  lemma PassiveNodeKinds(c: Text, s: Snapshot)
    ensures NodesIn(IdentityNodes(c, s), {ServiceAccount, RoleBinding, ClusterRoleBinding})
    ensures NodesIn(Flat(s.webhookConfigs, WebhookNodeF(c)), {WebhookConfig}) && NodesIn(Flat(s.events, EventNodeF(c)), {Event})
  {
    hide ResourceID, KindTag, NodeKindName;
    FlatNodesIn(s.serviceAccounts, ServiceAccountNodeF(c), {ServiceAccount});
    FlatNodesIn(s.roleBindings, RoleBindingNodeF(c), {RoleBinding});
    FlatNodesIn(s.clusterRoleBindings, ClusterRoleBindingNodeF(c), {ClusterRoleBinding});
    FlatNodesIn(s.webhookConfigs, WebhookNodeF(c), {WebhookConfig});
    FlatNodesIn(s.events, EventNodeF(c), {Event});
  }

  lemma StorageNodeKinds(c: Text, s: Snapshot)
    ensures NodesIn(ObservedStorageNodes(c, s), {PVC, PV, StorageClass, CSIDriver})
  {
    hide ResourceID, KindTag, NodeKindName;
    FlatNodesIn(s.pvcs, PVCNodeF(c), {PVC});
    FlatNodesIn(s.pvs, PVNodeF(c), {PV});
    FlatNodesIn(s.storageClasses, StorageClassNodeF(c), {StorageClass});
    FlatNodesIn(s.csiDrivers, CSIDriverNodeF(c), {CSIDriver});
  }

  lemma SnapshotNodeKinds(c: Text, s: Snapshot)
    ensures NodesIn(NodesBeforeStorage(c, s), {Workload, Pod, Image, NodeKindNode, Service, ConfigMap, Secret})
    ensures NodesIn(IdentityNodes(c, s), {ServiceAccount, RoleBinding, ClusterRoleBinding})
    ensures NodesIn(ObservedStorageNodes(c, s), {PVC, PV, StorageClass, CSIDriver})
    ensures NodesIn(Flat(s.webhookConfigs, WebhookNodeF(c)), {WebhookConfig})
    ensures NodesIn(Flat(s.events, EventNodeF(c)), {Event})
  {
    hide Coherent, Flat, IdentityNodes, ObservedStorageNodes;
    WorkingNodeKinds(c, s);
    PassiveNodeKinds(c, s);
    StorageNodeKinds(c, s);
  }

  lemma {:induction false} ImageNodeKinds(c: Text, images: seq<Text>)
    ensures NodesIn(ImageNodes(c, images), {Image})
  {
    if images != [] {
      ImageNodeKinds(c, images[..|images| - 1]);
    }
  }

  lemma {:induction false} SyntheticNodeKinds(c: Text, rules: seq<CSIRule>, observed: map<string, CanonicalID>, scs: seq<KubeStorageClass>)
    ensures NodesIn(SyntheticNodes(c, rules, observed, scs), {CSIDriver})
  {
    if scs != [] {
      SyntheticNodeKinds(c, rules, observed, scs[..|scs| - 1]);
    }
  }

  /** The nodes whose identifiers were made for one of the kinds. */
  function Tagged(m: NodeMap, kinds: set<NodeKind>): NodeMap {
    map id | id in m && (exists k | k in kinds :: KindTag(id) == NodeKindName(k)) :: m[id]
  }

  /** The nodes of one of the kinds. */
  function OfKind(m: NodeMap, kinds: set<NodeKind>): NodeMap {
    map id | id in m && m[id].kind in kinds :: m[id]
  }

  lemma TaggedAppend(a: seq<Node>, b: seq<Node>, kinds: set<NodeKind>)
    ensures Tagged(ToNodes(a + b), kinds) == Tagged(ToNodes(a), kinds) + Tagged(ToNodes(b), kinds)
  {
    hide KindTag, NodeKindName;
    ToNodesAppend(a, b);
  }

  lemma TaggedNone(ns: seq<Node>, own: set<NodeKind>, kinds: set<NodeKind>)
    requires NodesIn(ns, own) && own !! kinds
    ensures Tagged(ToNodes(ns), kinds) == map[]
  {
    ToNodesMembers(ns);
    forall id | id in ToNodes(ns)
      ensures !exists k | k in kinds :: KindTag(id) == NodeKindName(k)
    {
      var n := ToNodes(ns)[id];
      forall k | k in kinds && KindTag(id) == NodeKindName(k) { NodeKindNameIsInjective(k, n.kind); }
    }
  }

  lemma TaggedAll(ns: seq<Node>, own: set<NodeKind>, kinds: set<NodeKind>)
    requires NodesIn(ns, own) && own <= kinds
    ensures Tagged(ToNodes(ns), kinds) == ToNodes(ns)
  {
    hide KindTag, NodeKindName;
    ToNodesMembers(ns);
  }

  lemma TaggedIsOfKind(ns: seq<Node>, all: set<NodeKind>, kinds: set<NodeKind>)
    requires NodesIn(ns, all)
    ensures OfKind(ToNodes(ns), kinds) == Tagged(ToNodes(ns), kinds)
  {
    ToNodesMembers(ns);
    forall id | id in ToNodes(ns)
      ensures ToNodes(ns)[id].kind in kinds <==> exists k | k in kinds :: KindTag(id) == NodeKindName(k)
    {
      var n := ToNodes(ns)[id];
      forall k | k in kinds && KindTag(id) == NodeKindName(k) { NodeKindNameIsInjective(k, n.kind); }
    }
  }

  lemma {:induction false} PodsAmongAppend(a: seq<Node>, b: seq<Node>)
    ensures PodsAmong(a + b) == PodsAmong(a) + PodsAmong(b)
  {
    if b == [] {
      assert a + b == a;
    } else {
      PodsAmongAppend(a, b[..|b| - 1]);
      assert (a + b)[..|a + b| - 1] == a + b[..|b| - 1];
    }
  }

  lemma {:induction false} NoPodsAmong(ns: seq<Node>, kinds: set<NodeKind>)
    requires NodesIn(ns, kinds) && Pod !in kinds
    ensures PodsAmong(ns) == []
  {
    if ns != [] {
      NoPodsAmong(ns[..|ns| - 1], kinds);
    }
  }

  lemma PodAndItsImages(c: Text, p: KubePod)
    ensures PodsAmong(PodAndImagesF(c)(p)) == [PodNode(c, p)]
  {
    hide PodNode, ImageNodes, NodesIn;
    ImageNodeKinds(c, p.containerImages);
    NoPodsAmong(ImageNodes(c, p.containerImages), {Image});
    PodsAmongAppend([PodNode(c, p)], ImageNodes(c, p.containerImages));
    PodNodeIsPod(c, p);
    assert [PodNode(c, p)][..0] == [];
  }

  lemma PodNodeIsPod(c: Text, p: KubePod)
    ensures PodNode(c, p).kind == Pod
  {
  }

  lemma {:induction false} PodsAmongPods(c: Text, pods: seq<KubePod>)
    ensures PodsAmong(Flat(pods, PodAndImagesF(c))) == Flat(pods, PodNodeF(c))
  {
    hide PodNode, ImageNodes, PodsAmong;
    if pods != [] {
      var init, last := pods[..|pods| - 1], pods[|pods| - 1];
      PodsAmongPods(c, init);
      PodAndItsImages(c, last);
      PodsAmongAppend(Flat(init, PodAndImagesF(c)), PodAndImagesF(c)(last));
    } else {
      NoPodsAmong([], {});
    }
  }

  /** The component pods Build collects from its node list are the snapshot's pods, in order. */
  lemma InfraPodsAreThePods(c: Text, rules: seq<CSIRule>, x: Inferred, s: Snapshot)
    requires InferredShape(x)
    ensures PodsAmong(BuildNodes(c, rules, x, s)) == Flat(s.pods, PodNodeF(c))
  {
    hide Flat, PodsAmong, NodesIn, WorkloadNodeF, PodAndImagesF, PodNodeF, KubeNodeF, ServiceNodeF, ConfigMapNodeF, SecretNodeF,
         WebhookNodeF, EventNodeF, IdentityNodes, ObservedStorageNodes, SyntheticNodes, ObservedDriverIDs;
    var w, pods := Flat(s.workloads, WorkloadNodeF(c)), Flat(s.pods, PodAndImagesF(c));
    var rest := [Flat(s.nodes, KubeNodeF(c)), Flat(s.services, ServiceNodeF(c)), Flat(s.configMaps, ConfigMapNodeF(c)),
                 Flat(s.secrets, SecretNodeF(c)), IdentityNodes(c, s), ObservedStorageNodes(c, s),
                 Flat(s.webhookConfigs, WebhookNodeF(c)), x.helmNodes, Flat(s.events, EventNodeF(c)),
                 SyntheticNodes(c, rules, ObservedDriverIDs(c, s.csiDrivers), s.storageClasses)];
    OtherNodesAreNoPods(c, rules, x, s);
    PodsAmongPods(c, s.pods);
    PodsAmongAppend(w, pods);
    PodsAmongAppend(w + pods, rest[0]);
    PodsAmongAppend(w + pods + rest[0], rest[1]);
    PodsAmongAppend(w + pods + rest[0] + rest[1], rest[2]);
    PodsAmongAppend(w + pods + rest[0] + rest[1] + rest[2], rest[3]);
    var a := NodesBeforeStorage(c, s);
    PodsAmongAppend(a, rest[4]);
    PodsAmongAppend(a + rest[4], rest[5]);
    PodsAmongAppend(a + rest[4] + rest[5], rest[6]);
    PodsAmongAppend(a + rest[4] + rest[5] + rest[6], rest[7]);
    PodsAmongAppend(a + rest[4] + rest[5] + rest[6] + rest[7], rest[8]);
    PodsAmongAppend(a + rest[4] + rest[5] + rest[6] + rest[7] + rest[8], rest[9]);
  }

  lemma OtherNodesAreNoPods(c: Text, rules: seq<CSIRule>, x: Inferred, s: Snapshot)
    requires InferredShape(x)
    ensures PodsAmong(Flat(s.workloads, WorkloadNodeF(c))) == [] && PodsAmong(Flat(s.nodes, KubeNodeF(c))) == []
    ensures PodsAmong(Flat(s.services, ServiceNodeF(c))) == [] && PodsAmong(Flat(s.configMaps, ConfigMapNodeF(c))) == []
    ensures PodsAmong(Flat(s.secrets, SecretNodeF(c))) == [] && PodsAmong(IdentityNodes(c, s)) == []
    ensures PodsAmong(ObservedStorageNodes(c, s)) == [] && PodsAmong(Flat(s.webhookConfigs, WebhookNodeF(c))) == []
    ensures PodsAmong(x.helmNodes) == [] && PodsAmong(Flat(s.events, EventNodeF(c))) == []
    ensures PodsAmong(SyntheticNodes(c, rules, ObservedDriverIDs(c, s.csiDrivers), s.storageClasses)) == []
  {
    WorkingNodeKinds(c, s);
    PassiveNodeKinds(c, s);
    StorageNodeKinds(c, s);
    SyntheticNodeKinds(c, rules, ObservedDriverIDs(c, s.csiDrivers), s.storageClasses);
    hide NodesIn, PodsAmong, Flat, IdentityNodes, ObservedStorageNodes, SyntheticNodes, ObservedDriverIDs;
    NoPodsAmong(Flat(s.workloads, WorkloadNodeF(c)), {Workload});
    NoPodsAmong(Flat(s.nodes, KubeNodeF(c)), {NodeKindNode});
    NoPodsAmong(Flat(s.services, ServiceNodeF(c)), {Service});
    NoPodsAmong(Flat(s.configMaps, ConfigMapNodeF(c)), {ConfigMap});
    NoPodsAmong(Flat(s.secrets, SecretNodeF(c)), {Secret});
    NoPodsAmong(IdentityNodes(c, s), {ServiceAccount, RoleBinding, ClusterRoleBinding});
    NoPodsAmong(ObservedStorageNodes(c, s), {PVC, PV, StorageClass, CSIDriver});
    NoPodsAmong(Flat(s.webhookConfigs, WebhookNodeF(c)), {WebhookConfig});
    NoPodsAmong(x.helmNodes, {HelmRelease, HelmChart});
    NoPodsAmong(Flat(s.events, EventNodeF(c)), {Event});
    NoPodsAmong(SyntheticNodes(c, rules, ObservedDriverIDs(c, s.csiDrivers), s.storageClasses), {CSIDriver});
  }

  /** The rebuild's nodes restricted to some kinds, group by group. */
  lemma TaggedBuild(c: Text, rules: seq<CSIRule>, x: Inferred, s: Snapshot, kinds: set<NodeKind>)
    ensures Tagged(ToNodes(BuildNodes(c, rules, x, s)), kinds) ==
              Tagged(ToNodes(NodesBeforeStorage(c, s)), kinds) + Tagged(ToNodes(IdentityNodes(c, s)), kinds)
              + Tagged(ToNodes(ObservedStorageNodes(c, s)), kinds) + Tagged(ToNodes(Flat(s.webhookConfigs, WebhookNodeF(c))), kinds)
              + Tagged(ToNodes(x.helmNodes), kinds) + Tagged(ToNodes(Flat(s.events, EventNodeF(c))), kinds)
              + Tagged(ToNodes(SyntheticNodes(c, rules, ObservedDriverIDs(c, s.csiDrivers), s.storageClasses)), kinds)
  {
    hide Tagged, ToNodes, NodesBeforeStorage, IdentityNodes, ObservedStorageNodes, SyntheticNodes, Flat, ObservedDriverIDs;
    var a := NodesBeforeStorage(c, s);
    TaggedAppend(a, IdentityNodes(c, s), kinds);
    a := a + IdentityNodes(c, s);
    TaggedAppend(a, ObservedStorageNodes(c, s), kinds);
    a := a + ObservedStorageNodes(c, s);
    TaggedAppend(a, Flat(s.webhookConfigs, WebhookNodeF(c)), kinds);
    a := a + Flat(s.webhookConfigs, WebhookNodeF(c));
    TaggedAppend(a, x.helmNodes, kinds);
    a := a + x.helmNodes;
    TaggedAppend(a, Flat(s.events, EventNodeF(c)), kinds);
    a := a + Flat(s.events, EventNodeF(c));
    TaggedAppend(a, SyntheticNodes(c, rules, ObservedDriverIDs(c, s.csiDrivers), s.storageClasses), kinds);
  }
}
