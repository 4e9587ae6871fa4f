/** What the endpoints of edges are: only uses_image edges ever touch images, and ownership edges come in pairs. */
module EdgeTyping {
  import opened Identity
  import opened GraphModel
  import opened Resources
  import opened OwnerChain
  import opened Csi
  import opened Builder
  import opened RebuildSections
  import WR = WorkloadRefinement

  predicate NotImage(id: CanonicalID) {
    KindTag(id) != NodeKindName(Image)
  }

  lemma OtherKindsAreNotImages(id: CanonicalID, kind: NodeKind)
    requires KindTag(id) == NodeKindName(kind) && kind != Image
    ensures NotImage(id)
  {
    if NodeKindName(kind) == NodeKindName(Image) {
      NodeKindNameIsInjective(kind, Image);
    }
  }

  ghost predicate AvoidsImages(es: seq<Edge>) {
    forall e | e in es :: NotImage(e.from) && NotImage(e.to) && e.kind != UsesImage
  }

  /** managed_by(p, w) is listed exactly when owns_pod(w, p) is. */
  ghost predicate Paired(es: seq<Edge>) {
    forall a, b :: HasEdge(es, EdgeKey(a, ManagedBy, b)) <==> HasEdge(es, EdgeKey(b, OwnsPod, a))
  }

  /** An edge list that leaves images alone and pairs its ownership edges. */
  ghost predicate Regular(es: seq<Edge>) {
    AvoidsImages(es) && Paired(es)
  }

  lemma HasEdgeAppend(a: seq<Edge>, b: seq<Edge>)
    ensures forall k :: HasEdge(a + b, k) <==> HasEdge(a, k) || HasEdge(b, k)
  {
    assert forall e :: e in a + b <==> e in a || e in b;
  }

  lemma RegularAppend(a: seq<Edge>, b: seq<Edge>)
    requires Regular(a) && Regular(b)
    ensures Regular(a + b)
  {
    HasEdgeAppend(a, b);
    hide HasEdge, NotImage;
  }

  lemma RegularNone()
    ensures Regular([])
  {
  }

  lemma {:induction false} RegularFlat<A>(xs: seq<A>, f: A -> seq<Edge>)
    requires forall x | x in xs :: Regular(f(x))
    ensures Regular(Flat(xs, f))
  {
    hide Regular;
    if xs == [] {
      RegularNone();
    } else {
      RegularFlat(xs[..|xs| - 1], f);
      RegularAppend(Flat(xs[..|xs| - 1], f), f(xs[|xs| - 1]));
    }
  }

  const OWNERSHIP: set<EdgeKind> := {ManagedBy, OwnsPod}

  lemma RegularUnowned(es: seq<Edge>, kinds: set<EdgeKind>)
    requires EdgesIn(es, kinds) && kinds !! OWNERSHIP && UsesImage !in kinds
    requires forall e | e in es :: NotImage(e.from) && NotImage(e.to)
    ensures Regular(es)
  {
  }

  // ---- Identifier maps ----

  ghost predicate NoImages(ids: set<CanonicalID>) {
    forall id | id in ids :: NotImage(id)
  }

  lemma IndexNoImages<T>(xs: seq<T>, key: T -> string, id: T -> CanonicalID)
    requires forall x | x in xs :: NotImage(id(x))
    ensures NoImages(Index(xs, key, id).Values)
  {
    hide NotImage;
    IndexMembers(xs, key, id);
  }

  lemma NoImagesUnion(m: map<string, CanonicalID>, n: map<string, CanonicalID>)
    requires NoImages(m.Values) && NoImages(n.Values)
    ensures NoImages((m + n).Values)
  {
    hide NotImage;
  }

  /** No constructor but ImageID makes identifiers of images. */
  lemma IDsAreNotImages(c: Text)
    ensures forall w :: NotImage(WorkloadID(c, w))
    ensures forall p :: NotImage(PodID(c, p))
    ensures forall n :: NotImage(NodeID(c, n))
    ensures forall v :: NotImage(ServiceID(c, v))
    ensures forall e :: NotImage(EventID(c, e))
  {
    hide NotImage, ResourceID, KindTag, NodeKindName;
    forall w { OtherKindsAreNotImages(WorkloadID(c, w), Workload); }
    forall p { OtherKindsAreNotImages(PodID(c, p), Pod); }
    forall n { OtherKindsAreNotImages(NodeID(c, n), NodeKindNode); }
    forall v { OtherKindsAreNotImages(ServiceID(c, v), Service); }
    forall e { OtherKindsAreNotImages(EventID(c, e), Event); }
  }

  lemma PassiveIDsAreNotImages(c: Text)
    ensures forall x :: NotImage(ConfigMapID(c, x))
    ensures forall x :: NotImage(SecretID(c, x))
    ensures forall x :: NotImage(ServiceAccountID(c, x))
    ensures forall b :: NotImage(RoleBindingID(c, b))
    ensures forall b :: NotImage(ClusterRoleBindingID(c, b))
    ensures forall w :: NotImage(WebhookID(c, w))
  {
    hide NotImage, ResourceID, KindTag, NodeKindName;
    forall x { OtherKindsAreNotImages(ConfigMapID(c, x), ConfigMap); }
    forall x { OtherKindsAreNotImages(SecretID(c, x), Secret); }
    forall x { OtherKindsAreNotImages(ServiceAccountID(c, x), ServiceAccount); }
    forall b { OtherKindsAreNotImages(RoleBindingID(c, b), RoleBinding); }
    forall b { OtherKindsAreNotImages(ClusterRoleBindingID(c, b), ClusterRoleBinding); }
    forall w { OtherKindsAreNotImages(WebhookID(c, w), WebhookConfig); }
  }

  lemma StorageIDsAreNotImages(c: Text)
    ensures forall p :: NotImage(PVCID(c, p))
    ensures forall p :: NotImage(PVID(c, p))
    ensures forall x :: NotImage(StorageClassID(c, x))
    ensures forall name, uid :: NotImage(CSIDriverID(c, name, uid))
  {
    hide NotImage, ResourceID, KindTag, NodeKindName;
    forall p { OtherKindsAreNotImages(PVCID(c, p), PVC); }
    forall p { OtherKindsAreNotImages(PVID(c, p), PV); }
    forall x { OtherKindsAreNotImages(StorageClassID(c, x), StorageClass); }
    forall name, uid { OtherKindsAreNotImages(CSIDriverID(c, name, uid), CSIDriver); }
  }

  // ---- Each pass of the rebuild ----

  ghost predicate TypedPodMaps(m: PodMaps) {
    NoImages(m.nodes.Values) && NoImages(m.configMaps.Values) && NoImages(m.secrets.Values) && NoImages(m.pvcs.Values)
    && NoImages(m.accounts.Values)
  }

  lemma PodMapsAreTyped(c: Text, s: Snapshot)
    ensures TypedPodMaps(PodMapsOf(c, s))
  {
    hide NotImage, NoImages, Index, ConfigMapID, SecretID, ServiceAccountID, PVCID, NodeID, NewChainResolver;
    IDsAreNotImages(c);
    PassiveIDsAreNotImages(c);
    StorageIDsAreNotImages(c);
    IndexNoImages(s.nodes, NodeKeyF(), NodeIDF(c));
    IndexNoImages(s.configMaps, NamedKeyF(), ConfigMapIDF(c));
    IndexNoImages(s.secrets, NamedKeyF(), SecretIDF(c));
    IndexNoImages(s.pvcs, PVCKeyF(), PVCIDF(c));
    IndexNoImages(s.serviceAccounts, NamedKeyF(), ServiceAccountIDF(c));
  }

  ghost predicate TypedTargets(targets: seq<WorkloadTarget>) {
    forall t | t in targets :: NotImage(t.id)
  }

  lemma TargetsAreTyped(c: Text, s: Snapshot, namespace: string, refs: seq<OwnerReference>)
    ensures TypedTargets(ResolveReferences(NewChainResolver(c, s.workloads, s.replicaSets), namespace, refs))
  {
    hide ResolveReferences, NewChainResolver, NotImage, WorkloadID;
    IDsAreNotImages(c);
    WR.TargetsAreWorkloads(c, s, namespace, refs);
  }

  lemma {:induction false} OwnerEdgesAreRegular(podID: CanonicalID, targets: seq<WorkloadTarget>)
    requires NotImage(podID) && TypedTargets(targets)
    ensures Regular(OwnerEdges(podID, targets))
  {
    hide NotImage;
    if targets == [] {
      RegularNone();
    } else {
      var init, t := targets[..|targets| - 1], targets[|targets| - 1];
      OwnerEdgesAreRegular(podID, init);
      var pair := [NewEdge(podID, t.id, ManagedBy), NewEdge(t.id, podID, OwnsPod)];
      OnePairIsRegular(podID, t.id);
      hide Regular;
      RegularAppend(OwnerEdges(podID, init), pair);
    }
  }

  lemma OnePairIsRegular(podID: CanonicalID, id: CanonicalID)
    requires NotImage(podID) && NotImage(id)
    ensures Regular([NewEdge(podID, id, ManagedBy), NewEdge(id, podID, OwnsPod)])
  {
    hide NotImage;
    var es := [NewEdge(podID, id, ManagedBy), NewEdge(id, podID, OwnsPod)];
    assert es[0].Triple() == EdgeKey(podID, ManagedBy, id) && es[1].Triple() == EdgeKey(id, OwnsPod, podID);
    assert es[0] in es && es[1] in es;
    assert forall k :: HasEdge(es, k) <==> k == EdgeKey(podID, ManagedBy, id) || k == EdgeKey(id, OwnsPod, podID);
  }

  lemma RefsAreRegular(from: CanonicalID, kind: EdgeKind, namespace: Text, refs: seq<Text>, ids: map<string, CanonicalID>)
    requires NotImage(from) && NoImages(ids.Values) && kind !in OWNERSHIP && kind != UsesImage
    ensures Regular(RefEdges(from, kind, namespace, refs, ids))
  {
    hide NotImage, RefEdges;
    RegularUnowned(RefEdges(from, kind, namespace, refs, ids), {kind});
  }

  lemma PodSinglesAreRegular(m: PodMaps, id: CanonicalID, p: KubePod)
    requires TypedPodMaps(m) && NotImage(id)
    ensures Regular(ScheduledEdges(id, p, m.nodes)) && Regular(ServiceAccountEdges(id, p, m.accounts))
  {
    hide NotImage, Regular;
    RegularUnowned(ScheduledEdges(id, p, m.nodes), {ScheduledOn});
    RegularUnowned(ServiceAccountEdges(id, p, m.accounts), {UsesServiceAccount});
  }

  lemma PodEdgesAreRegular(m: PodMaps, id: CanonicalID, p: KubePod)
    requires TypedPodMaps(m) && NotImage(id) && TypedTargets(PodTargets(m, p))
    ensures Regular(PodEdges(m, id, p))
  {
    hide NotImage, Regular, PodTargets, RefEdges, ScheduledEdges, ServiceAccountEdges, OwnerEdges, NoImages, TypedTargets;
    PodSinglesAreRegular(m, id, p);
    var es := ScheduledEdges(id, p, m.nodes);
    var more := RefEdges(id, UsesConfigMap, p.meta.namespace, p.configMapRefs, m.configMaps);
    RefsAreRegular(id, UsesConfigMap, p.meta.namespace, p.configMapRefs, m.configMaps);
    RegularAppend(es, more);
    es := es + more;
    more := RefEdges(id, UsesSecret, p.meta.namespace, p.secretRefs, m.secrets);
    RefsAreRegular(id, UsesSecret, p.meta.namespace, p.secretRefs, m.secrets);
    RegularAppend(es, more);
    es := es + more;
    more := RefEdges(id, MountsPVC, p.meta.namespace, p.pvcRefs, m.pvcs);
    RefsAreRegular(id, MountsPVC, p.meta.namespace, p.pvcRefs, m.pvcs);
    RegularAppend(es, more);
    es := es + more;
    RegularAppend(es, ServiceAccountEdges(id, p, m.accounts));
    OwnerEdgesAreRegular(id, PodTargets(m, p));
    RegularAppend(es + ServiceAccountEdges(id, p, m.accounts), OwnerEdges(id, PodTargets(m, p)));
  }

  lemma ListedPodsAreNotImages(c: Text, pods: seq<KubePod>, p: KubePod)
    ensures NotImage(ListedPodID(c, PodIDs(c, pods), p))
  {
    hide Index, PodID;
    IDsAreNotImages(c);
    IndexNoImages(pods, PodKeyF(), PodIDF(c));
    EmptyIsNotImage();
    hide NotImage;
  }

  lemma EmptyIsNotImage()
    ensures NotImage("")
  {
    assert KindTag("") == "";
  }

  lemma PodPassIsRegular(c: Text, s: Snapshot)
    ensures Regular(Flat(s.pods, PodEdgesF(c, s)))
  {
    hide PodMapsOf, PodEdges, NotImage, Regular, PodTargets, ListedPodID, PodIDs, Flat, TypedPodMaps, TypedTargets;
    var m := PodMapsOf(c, s);
    PodMapsAreTyped(c, s);
    forall p | p in s.pods
      ensures Regular(PodEdgesF(c, s)(p))
    {
      ListedPodsAreNotImages(c, s.pods, p);
      PodTargetsAreTyped(c, s, p);
      PodEdgesAreRegular(m, ListedPodID(c, PodIDs(c, s.pods), p), p);
    }
    RegularFlat(s.pods, PodEdgesF(c, s));
  }

  lemma PodTargetsAreTyped(c: Text, s: Snapshot, p: KubePod)
    ensures TypedTargets(PodTargets(PodMapsOf(c, s), p))
  {
    hide ResolveReferences, NewChainResolver, TypedTargets;
    TargetsAreTyped(c, s, p.meta.namespace, p.ownerReferences);
  }

  lemma EventTargetsAreTyped(c: Text, s: Snapshot)
    ensures NoImages(EventTargets(c, s).Values)
  {
    hide NotImage, NoImages, Index, ServiceAccountID, PVCID, NodeID, PodID, WorkloadID, ServiceID, PVID;
    IDsAreNotImages(c);
    PassiveIDsAreNotImages(c);
    StorageIDsAreNotImages(c);
    var m := Index(s.workloads, (w: KubeWorkload) => w.controllerKind + "/" + w.meta.uid, WorkloadIDF(c));
    IndexNoImages(s.workloads, (w: KubeWorkload) => w.controllerKind + "/" + w.meta.uid, WorkloadIDF(c));
    IndexNoImages(s.pods, (p: KubePod) => "Pod/" + p.meta.uid, PodIDF(c));
    var more := Index(s.pods, (p: KubePod) => "Pod/" + p.meta.uid, PodIDF(c));
    NoImagesUnion(m, more);
    m := m + more;
    IndexNoImages(s.nodes, (n: KubeNode) => "Node/" + n.meta.uid, NodeIDF(c));
    more := Index(s.nodes, (n: KubeNode) => "Node/" + n.meta.uid, NodeIDF(c));
    NoImagesUnion(m, more);
    m := m + more;
    IndexNoImages(s.services, (v: KubeService) => "Service/" + v.meta.uid, ServiceIDF(c));
    more := Index(s.services, (v: KubeService) => "Service/" + v.meta.uid, ServiceIDF(c));
    NoImagesUnion(m, more);
    m := m + more;
    IndexNoImages(s.serviceAccounts, (a: KubeNamed) => "ServiceAccount/" + a.meta.uid, ServiceAccountIDF(c));
    more := Index(s.serviceAccounts, (a: KubeNamed) => "ServiceAccount/" + a.meta.uid, ServiceAccountIDF(c));
    NoImagesUnion(m, more);
    m := m + more;
    IndexNoImages(s.pvcs, (p: KubePVC) => "PersistentVolumeClaim/" + p.meta.uid, PVCIDF(c));
    more := Index(s.pvcs, (p: KubePVC) => "PersistentVolumeClaim/" + p.meta.uid, PVCIDF(c));
    NoImagesUnion(m, more);
    m := m + more;
    IndexNoImages(s.pvs, (p: KubePV) => "PersistentVolume/" + p.meta.uid, PVIDF(c));
    more := Index(s.pvs, (p: KubePV) => "PersistentVolume/" + p.meta.uid, PVIDF(c));
    NoImagesUnion(m, more);
  }

  lemma ReportIsRegular(c: Text, s: Snapshot, e: KubeEvent)
    ensures Regular(EventEdges(c, EventTargets(c, s), e))
  {
    hide NotImage, EventTargets, EventID;
    EventTargetsAreTyped(c, s);
    IDsAreNotImages(c);
    RegularUnowned(EventEdges(c, EventTargets(c, s), e), {ReportedByEvent});
  }

  lemma EventPassIsRegular(c: Text, s: Snapshot)
    ensures Regular(Flat(s.events, EventEdgesF(c, s)))
  {
    hide EventTargets, EventEdges, Regular;
    forall e { ReportIsRegular(c, s, e); }
    RegularFlat(s.events, EventEdgesF(c, s));
  }

  lemma SubjectsAreRegular(bindingID: CanonicalID, b: KubeBinding, defaultNamespace: string, accounts: map<string, CanonicalID>, n: nat)
    requires n <= |b.subjectKinds| && NotImage(bindingID) && NoImages(accounts.Values)
    ensures Regular(SubjectEdges(bindingID, b, defaultNamespace, accounts, n))
  {
    hide NotImage, SubjectEdges;
    RegularUnowned(SubjectEdges(bindingID, b, defaultNamespace, accounts, n), {BoundByRoleBinding});
  }

  lemma BindingPassesAreRegular(c: Text, s: Snapshot)
    ensures Regular(Flat(s.roleBindings, RoleBindingEdgesF(c, s)))
    ensures Regular(Flat(s.clusterRoleBindings, ClusterRoleBindingEdgesF(c, s)))
  {
    hide NotImage, Regular, SubjectEdges, Index, ServiceAccountID, RoleBindingID, ClusterRoleBindingID;
    PassiveIDsAreNotImages(c);
    RegularNone();
    IndexNoImages(s.serviceAccounts, NamedKeyF(), ServiceAccountIDF(c));
    IndexNoImages(s.roleBindings, BindingKeyF(), RoleBindingIDF(c));
    IndexNoImages(s.clusterRoleBindings, BindingNameF(), ClusterRoleBindingIDF(c));
    var rb, crb, accounts := RoleBindingIDs(c, s.roleBindings), ClusterRoleBindingIDs(c, s.clusterRoleBindings), ServiceAccountIDs(c, s.serviceAccounts);
    forall b | b in s.roleBindings
      ensures Regular(RoleBindingEdgesF(c, s)(b))
    {
      if MetaKey(b.meta) in rb { SubjectsAreRegular(rb[MetaKey(b.meta)], b, b.meta.namespace, accounts, |b.subjectKinds|); }
    }
    forall b | b in s.clusterRoleBindings
      ensures Regular(ClusterRoleBindingEdgesF(c, s)(b))
    {
      if b.meta.name in crb { SubjectsAreRegular(crb[b.meta.name], b, "", accounts, |b.subjectKinds|); }
    }
    RegularFlat(s.roleBindings, RoleBindingEdgesF(c, s));
    RegularFlat(s.clusterRoleBindings, ClusterRoleBindingEdgesF(c, s));
  }

  lemma {:induction false} ControlledByNamesTargets(childID: CanonicalID, targets: seq<WorkloadTarget>)
    ensures forall e | e in ControlledByEdges(childID, targets) :: exists t | t in targets :: e == NewEdge(childID, t.id, ControlledBy)
  {
    if targets != [] {
      ControlledByNamesTargets(childID, targets[..|targets| - 1]);
      assert targets == targets[..|targets| - 1] + [targets[|targets| - 1]];
    }
  }

  lemma ControlIsRegular(childID: CanonicalID, targets: seq<WorkloadTarget>)
    requires NotImage(childID) && TypedTargets(targets)
    ensures Regular(ControlledByEdges(childID, targets))
  {
    hide NotImage;
    ControlledByNamesTargets(childID, targets);
    hide ControlledByEdges;
    RegularUnowned(ControlledByEdges(childID, targets), {ControlledBy});
  }

  lemma WorkloadPassIsRegular(c: Text, s: Snapshot)
    ensures Regular(Flat(s.workloads, WorkloadEdgesF(c, s)))
  {
    hide NotImage, Regular, NewChainResolver, ResolveReferences, WorkloadID, ControlledByEdges, TypedTargets;
    IDsAreNotImages(c);
    forall w | w in s.workloads
      ensures Regular(WorkloadEdgesF(c, s)(w))
    {
      TargetsAreTyped(c, s, w.meta.namespace, w.ownerReferences);
      ControlIsRegular(WorkloadID(c, w), ResolveReferences(NewChainResolver(c, s.workloads, s.replicaSets), w.meta.namespace, w.ownerReferences));
    }
    RegularFlat(s.workloads, WorkloadEdgesF(c, s));
  }

  lemma ServicePassIsRegular(c: Text, s: Snapshot)
    ensures Regular(Flat(s.services, ServiceEdgesF(c, s)))
  {
    hide NotImage, Regular, Index, ServiceID, PodID, LabelsMatch, Flat;
    IDsAreNotImages(c);
    RegularNone();
    IndexNoImages(s.services, ServiceKeyF(), ServiceIDF(c));
    IndexNoImages(s.pods, PodKeyF(), PodIDF(c));
    var services, pods := ServiceIDs(c, s.services), PodIDs(c, s.pods);
    forall v | v in s.services
      ensures Regular(ServiceEdgesF(c, s)(v))
    {
      if MetaKey(v.meta) in services {
        SelectionsAreRegular(services[MetaKey(v.meta)], v, s.pods, pods);
      }
    }
    RegularFlat(s.services, ServiceEdgesF(c, s));
  }

  lemma SelectionsAreRegular(sid: CanonicalID, v: KubeService, ps: seq<KubePod>, pods: map<string, CanonicalID>)
    requires NotImage(sid) && NoImages(pods.Values)
    ensures Regular(Flat(ps, SelectEdges(sid, v, pods)))
  {
    hide NotImage, LabelsMatch;
    var f := SelectEdges(sid, v, pods);
    forall p | p in ps
      ensures Regular(f(p))
    {
      RegularUnowned(f(p), {SelectsPod});
    }
    hide Regular;
    RegularFlat(ps, f);
  }

  // ---- Storage ----

  ghost predicate TypedStorageMaps(m: StorageMaps) {
    NoImages(m.pvcs.Values) && NoImages(m.pvs.Values) && NoImages(m.classes.Values) && NoImages(m.drivers.Values)
  }

  lemma {:induction false} SyntheticIDsAreTyped(c: Text, rules: seq<CSIRule>, observed: map<string, CanonicalID>, scs: seq<KubeStorageClass>)
    requires NoImages(observed.Values)
    ensures NoImages(WithSynthetic(c, rules, observed, scs).Values)
  {
    hide NotImage, CSIDriverID, IsCSIProvisioner;
    StorageIDsAreNotImages(c);
    if scs != [] {
      SyntheticIDsAreTyped(c, rules, observed, scs[..|scs| - 1]);
    }
  }

  lemma StorageMapsAreTyped(c: Text, rules: seq<CSIRule>, s: Snapshot)
    ensures TypedStorageMaps(StorageMapsOf(c, rules, s))
  {
    hide NotImage, NoImages, Index, CSIDriverID, PVCID, PVID, StorageClassID, WithSynthetic;
    StorageIDsAreNotImages(c);
    IndexNoImages(s.pvcs, PVCKeyF(), PVCIDF(c));
    IndexNoImages(s.pvs, PVKeyF(), PVIDF(c));
    IndexNoImages(s.storageClasses, StorageClassKeyF(), StorageClassIDF(c));
    IndexNoImages(s.csiDrivers, DriverKeyF(), DriverIDF(c));
    SyntheticIDsAreTyped(c, rules, ObservedDriverIDs(c, s.csiDrivers), s.storageClasses);
  }

  ghost predicate TypedPods(infraPods: seq<Node>) {
    forall n | n in infraPods :: NotImage(n.id)
  }

  ghost predicate FromTo(es: seq<Edge>) {
    forall e | e in es :: NotImage(e.from) && NotImage(e.to)
  }

  lemma FromToFlat<A>(xs: seq<A>, f: A -> seq<Edge>)
    requires forall x | x in xs :: FromTo(f(x))
    ensures FromTo(Flat(xs, f))
  {
    hide NotImage;
    FlatMembers(xs, f);
  }

  lemma CorrelateIsTyped(rule: CSIRule, pvID: CanonicalID, affinity: string, infraPods: seq<Node>)
    requires NotImage(pvID) && TypedPods(infraPods)
    ensures FromTo(Correlate(rule, pvID, affinity, infraPods))
  {
    hide NotImage, IsController, IsAgent;
    FromToFlat(infraPods, PodCorrelation(rule, pvID, affinity));
  }

  lemma CorrelationIsTyped(rule: CSIRule, pvID: CanonicalID, nodeNames: seq<string>, infraPods: seq<Node>)
    requires NotImage(pvID) && TypedPods(infraPods)
    ensures FromTo(CorrelatePVToCSIComponents(rule, pvID, nodeNames, infraPods))
  {
    hide NotImage, NormalizeNodeNames, TypedPods, Correlate;
    forall affinity { CorrelateIsTyped(rule, pvID, affinity, infraPods); }
    var all := Flat(NormalizeNodeNames(nodeNames), CorrelateOn(rule, pvID, infraPods));
    FromToFlat(NormalizeNodeNames(nodeNames), CorrelateOn(rule, pvID, infraPods));
    FirstPerKeyIsPart(all);
  }

  lemma DriverEdgesAreTyped(driverID: CanonicalID, name: string, infraPods: seq<Node>, rules: seq<CSIRule>)
    requires NotImage(driverID) && TypedPods(infraPods)
    ensures FromTo(InferCSIComponentEdges(driverID, name, infraPods, rules))
  {
    hide NotImage, IsController, IsAgent;
    match RuleForDriver(name, rules)
    case NoRule =>
    case Rule(rule) => FromToFlat(infraPods, DriverComponent(rule, driverID));
  }

  lemma ComponentsAreTyped(m: StorageMaps, rules: seq<CSIRule>, s: Snapshot, infraPods: seq<Node>, order: seq<string>, names: map<string, string>)
    requires TypedStorageMaps(m) && TypedPods(infraPods)
    ensures FromTo(Flat(s.pvs, PVComponentEdgesF(m, rules, s, infraPods))) && FromTo(Flat(order, DriverEdgesF(m, rules, infraPods, names)))
  {
    hide NotImage, CorrelatePVToCSIComponents, InferCSIComponentEdges, AgentNodeNames, TypedPods, Flat;
    forall rule, id, ns {:trigger CorrelatePVToCSIComponents(rule, id, ns, infraPods)} | NotImage(id) { CorrelationIsTyped(rule, id, ns, infraPods); }
    FromToFlat(s.pvs, PVComponentEdgesF(m, rules, s, infraPods));
    forall id, name {:trigger InferCSIComponentEdges(id, name, infraPods, rules)} | NotImage(id) { DriverEdgesAreTyped(id, name, infraPods, rules); }
    FromToFlat(order, DriverEdgesF(m, rules, infraPods, names));
  }

  lemma ClaimsAreTyped(m: StorageMaps, s: Snapshot)
    requires TypedStorageMaps(m)
    ensures FromTo(Flat(s.pvcs, PVCEdgesF(m, s))) && FromTo(Flat(s.pvs, PVEdgesF(m))) && FromTo(Flat(s.storageClasses, StorageClassEdgesF(m)))
  {
    hide NotImage, StorageClassNameForPVC, Flat;
    FromToFlat(s.pvcs, PVCEdgesF(m, s));
    FromToFlat(s.pvs, PVEdgesF(m));
    FromToFlat(s.storageClasses, StorageClassEdgesF(m));
  }

  lemma StorageIsRegular(m: StorageMaps, rules: seq<CSIRule>, s: Snapshot, infraPods: seq<Node>, order: seq<string>, names: map<string, string>)
    requires TypedStorageMaps(m) && TypedPods(infraPods)
    ensures Regular(StorageEdges(m, rules, s, infraPods, order, names))
  {
    StorageIsTyped(m, rules, s, infraPods, order, names);
    StorageEdgeKinds(m, rules, s, infraPods, order, names);
    hide NotImage, StorageEdges;
    RegularUnowned(StorageEdges(m, rules, s, infraPods, order, names), STORAGE_EDGES);
  }

  lemma StorageIsTyped(m: StorageMaps, rules: seq<CSIRule>, s: Snapshot, infraPods: seq<Node>, order: seq<string>, names: map<string, string>)
    requires TypedStorageMaps(m) && TypedPods(infraPods)
    ensures FromTo(StorageEdges(m, rules, s, infraPods, order, names))
  {
    ComponentsAreTyped(m, rules, s, infraPods, order, names);
    ClaimsAreTyped(m, s);
    hide NotImage, Flat, PVCEdgesF, PVEdgesF, StorageClassEdgesF, PVComponentEdgesF, DriverEdgesF;
  }

  lemma EvidenceIsRegular(evidence: seq<Edge>, blocked: seq<CanonicalID>, webhooks: set<CanonicalID>)
    requires IsEvidence(evidence, blocked, webhooks) && (forall id | id in blocked :: NotImage(id)) && NoImages(webhooks)
    ensures Regular(evidence)
  {
    hide NotImage;
    EvidenceKinds(evidence, blocked, webhooks);
    forall e | e in evidence
      ensures NotImage(e.from) && NotImage(e.to)
    {
      var i :| 0 <= i < |evidence| && evidence[i] == e;
      assert blocked[i] in blocked;
    }
    RegularUnowned(evidence, {AffectedByWebhook});
  }

  lemma {:induction false} BlockedAreTyped(events: seq<KubeEvent>, workloads: map<string, CanonicalID>)
    requires NoImages(workloads.Values)
    ensures forall id | id in BlockedWorkloads(events, workloads) :: NotImage(id)
  {
    hide NotImage;
    if events != [] {
      BlockedAreTyped(events[..|events| - 1], workloads);
    }
  }

  lemma WebhooksAreTyped(c: Text, s: Snapshot)
    ensures NoImages(WebhookIDs(c, s.webhookConfigs).Values)
  {
    hide NotImage, WebhookID, Index;
    PassiveIDsAreNotImages(c);
    IndexNoImages(s.webhookConfigs, WebhookKeyF(), WebhookIDF(c));
  }

  lemma SnapshotEvidenceIsRegular(evidence: seq<Edge>, c: Text, s: Snapshot)
    requires IsEvidence(evidence, BlockedWorkloads(s.events, WorkloadIDs(c, s.workloads)), WebhookIDs(c, s.webhookConfigs).Values)
    ensures Regular(evidence)
  {
    hide NotImage, Index, BlockedWorkloads, IsEvidence, WorkloadID;
    IDsAreNotImages(c);
    WebhooksAreTyped(c, s);
    IndexNoImages(s.workloads, WorkloadKeyF(), WorkloadIDF(c));
    BlockedAreTyped(s.events, WorkloadIDs(c, s.workloads));
    EvidenceIsRegular(evidence, BlockedWorkloads(s.events, WorkloadIDs(c, s.workloads)), WebhookIDs(c, s.webhookConfigs).Values);
  }
}
