/** The full rebuild: every node and edge of a snapshot, in the order the source appends them. */
module Builder {
  import opened Identity
  import opened Strings
  import opened Sorting
  import opened GraphModel
  import opened Resources
  import opened OwnerChain
  import opened Csi

  /** What other inference modules contribute: Helm provenance and workload-controller edges. */
  datatype Inferred = Inferred(helmNodes: seq<Node>, helmEdges: seq<Edge>, controllerEdges: seq<Edge>)

  // ---- Nodes ----

  function ImageNode(c: Text, image: Text, index: nat): Node {
    Node(ImageID(c, image), Image, "Image", image, "", map["containerIndex" := Int(index)])
  }

  function ImageNodes(c: Text, images: seq<Text>): seq<Node> {
    if images == [] then []
    else ImageNodes(c, images[..|images| - 1]) + [ImageNode(c, images[|images| - 1], |images| - 1)]
  }

  function WorkloadNodeF(c: Text): KubeWorkload -> seq<Node> { (x: KubeWorkload) => [WorkloadNode(c, x)] }
  function PodNodeF(c: Text): KubePod -> seq<Node> { (x: KubePod) => [PodNode(c, x)] }
  function PodAndImagesF(c: Text): KubePod -> seq<Node> { (x: KubePod) => [PodNode(c, x)] + ImageNodes(c, x.containerImages) }
  function KubeNodeF(c: Text): KubeNode -> seq<Node> { (x: KubeNode) => [KubeNodeNode(c, x)] }
  function ServiceNodeF(c: Text): KubeService -> seq<Node> { (x: KubeService) => [ServiceNode(c, x)] }
  function ConfigMapNodeF(c: Text): KubeNamed -> seq<Node> { (x: KubeNamed) => [ConfigMapNode(c, x)] }
  function SecretNodeF(c: Text): KubeNamed -> seq<Node> { (x: KubeNamed) => [SecretNode(c, x)] }
  function ServiceAccountNodeF(c: Text): KubeNamed -> seq<Node> { (x: KubeNamed) => [ServiceAccountNode(c, x)] }
  function RoleBindingNodeF(c: Text): KubeBinding -> seq<Node> { (x: KubeBinding) => [RoleBindingNode(c, x)] }
  function ClusterRoleBindingNodeF(c: Text): KubeBinding -> seq<Node> { (x: KubeBinding) => [ClusterRoleBindingNode(c, x)] }
  function PVCNodeF(c: Text): KubePVC -> seq<Node> { (x: KubePVC) => [PVCNode(c, x)] }
  function PVNodeF(c: Text): KubePV -> seq<Node> { (x: KubePV) => [PVNode(c, x)] }
  function StorageClassNodeF(c: Text): KubeStorageClass -> seq<Node> { (x: KubeStorageClass) => [StorageClassNode(c, x)] }
  function CSIDriverNodeF(c: Text): KubeNamed -> seq<Node> { (x: KubeNamed) => [CSIDriverNode(c, x)] }
  function WebhookNodeF(c: Text): KubeWebhookConfig -> seq<Node> { (x: KubeWebhookConfig) => [WebhookNode(c, x)] }
  function EventNodeF(c: Text): KubeEvent -> seq<Node> { (x: KubeEvent) => [EventNode(c, x)] }

  /** A storage class makes its provisioner a driver of its own unless that is observed or is no CSI driver at all. */
  predicate MakesDriver(known: map<string, CanonicalID>, rules: seq<CSIRule>, sc: KubeStorageClass) {
    sc.provisioner != "" && sc.provisioner !in known && IsCSIProvisioner(sc.provisioner, false, rules)
  }

  /** The driver map after the given storage classes. */
  function WithSynthetic(c: Text, rules: seq<CSIRule>, observed: map<string, CanonicalID>, scs: seq<KubeStorageClass>)
    : map<string, CanonicalID>
  {
    if scs == [] then observed
    else
      var before, sc := WithSynthetic(c, rules, observed, scs[..|scs| - 1]), scs[|scs| - 1];
      if MakesDriver(before, rules, sc) then before[sc.provisioner := CSIDriverID(c, sc.provisioner, "")] else before
  }

  function CSIDriverIDs(c: Text, rules: seq<CSIRule>, s: Snapshot): map<string, CanonicalID> {
    WithSynthetic(c, rules, ObservedDriverIDs(c, s.csiDrivers), s.storageClasses)
  }

  /** The nodes Build appends for provisioners on first sight. */
  function SyntheticNodes(c: Text, rules: seq<CSIRule>, observed: map<string, CanonicalID>, scs: seq<KubeStorageClass>): seq<Node> {
    if scs == [] then []
    else
      var init, sc := scs[..|scs| - 1], scs[|scs| - 1];
      SyntheticNodes(c, rules, observed, init)
      + if MakesDriver(WithSynthetic(c, rules, observed, init), rules, sc) then [SyntheticCSIDriverNode(c, sc.provisioner)] else []
  }

  function NodesBeforeStorage(c: Text, s: Snapshot): seq<Node> {
    Flat(s.workloads, WorkloadNodeF(c)) + Flat(s.pods, PodAndImagesF(c)) + Flat(s.nodes, KubeNodeF(c))
    + Flat(s.services, ServiceNodeF(c)) + Flat(s.configMaps, ConfigMapNodeF(c)) + Flat(s.secrets, SecretNodeF(c))
  }

  function IdentityNodes(c: Text, s: Snapshot): seq<Node> {
    Flat(s.serviceAccounts, ServiceAccountNodeF(c)) + Flat(s.roleBindings, RoleBindingNodeF(c))
    + Flat(s.clusterRoleBindings, ClusterRoleBindingNodeF(c))
  }

  function ObservedStorageNodes(c: Text, s: Snapshot): seq<Node> {
    Flat(s.pvcs, PVCNodeF(c)) + Flat(s.pvs, PVNodeF(c)) + Flat(s.storageClasses, StorageClassNodeF(c))
    + Flat(s.csiDrivers, CSIDriverNodeF(c))
  }

  function BuildNodes(c: Text, rules: seq<CSIRule>, x: Inferred, s: Snapshot): seq<Node> {
    NodesBeforeStorage(c, s) + IdentityNodes(c, s) + ObservedStorageNodes(c, s)
    + Flat(s.webhookConfigs, WebhookNodeF(c)) + x.helmNodes + Flat(s.events, EventNodeF(c))
    + SyntheticNodes(c, rules, ObservedDriverIDs(c, s.csiDrivers), s.storageClasses)
  }

  /** The first node with the identifier names the driver; without one the map key does. */
  function DriverName(nodes: seq<Node>, id: CanonicalID, fallback: string): string {
    if nodes == [] then fallback else if nodes[0].id == id then nodes[0].name else DriverName(nodes[1..], id, fallback)
  }

  function PodsAmong(nodes: seq<Node>): seq<Node> {
    if nodes == [] then []
    else PodsAmong(nodes[..|nodes| - 1]) + if nodes[|nodes| - 1].kind == Pod then [nodes[|nodes| - 1]] else []
  }

  // ---- Edges ----

  function ImageEdges(c: Text, podID: CanonicalID, images: seq<Text>): (es: seq<Edge>)
    ensures forall e | e in es :: e.from == podID && e.kind == UsesImage && KindTag(e.to) == NodeKindName(Image)
  {
    if images == [] then []
    else ImageEdges(c, podID, images[..|images| - 1]) + [NewEdge(podID, ImageID(c, images[|images| - 1]), UsesImage)]
  }

  function ImageEdgesF(c: Text): KubePod -> seq<Edge> { (p: KubePod) => ImageEdges(c, PodID(c, p), p.containerImages) }

  /** Identifiers of everything an event may be about, by kind and UID. */
  function EventTargets(c: Text, s: Snapshot): map<string, CanonicalID> {
    Index(s.workloads, WorkloadUIDF(), WorkloadIDF(c)) + Index(s.pods, PodUIDF(), PodIDF(c)) + Index(s.nodes, NodeUIDF(), NodeIDF(c))
    + Index(s.services, ServiceUIDF(), ServiceIDF(c)) + Index(s.serviceAccounts, AccountUIDF(), ServiceAccountIDF(c))
    + Index(s.pvcs, PVCUIDF(), PVCIDF(c)) + Index(s.pvs, PVUIDF(), PVIDF(c))
  }

  function WorkloadUIDF(): KubeWorkload -> string { (w: KubeWorkload) => w.controllerKind + "/" + w.meta.uid }
  function PodUIDF(): KubePod -> string { (p: KubePod) => "Pod/" + p.meta.uid }
  function NodeUIDF(): KubeNode -> string { (n: KubeNode) => "Node/" + n.meta.uid }
  function ServiceUIDF(): KubeService -> string { (v: KubeService) => "Service/" + v.meta.uid }
  function AccountUIDF(): KubeNamed -> string { (a: KubeNamed) => "ServiceAccount/" + a.meta.uid }
  function PVCUIDF(): KubePVC -> string { (p: KubePVC) => "PersistentVolumeClaim/" + p.meta.uid }
  function PVUIDF(): KubePV -> string { (p: KubePV) => "PersistentVolume/" + p.meta.uid }

  function EventEdges(c: Text, targets: map<string, CanonicalID>, e: KubeEvent): seq<Edge> {
    var key := e.involvedKind + "/" + e.involvedUID;
    if key in targets then [NewEdge(EventID(c, e), targets[key], ReportedByEvent)] else []
  }

  function EventEdgesF(c: Text, s: Snapshot): KubeEvent -> seq<Edge> {
    var targets := EventTargets(c, s);
    (e: KubeEvent) => EventEdges(c, targets, e)
  }

  /** One edge per listed name that the map knows in the namespace. */
  function RefEdges(from: CanonicalID, kind: EdgeKind, namespace: Text, refs: seq<Text>, ids: map<string, CanonicalID>): (es: seq<Edge>)
    ensures forall e | e in es :: e.from == from && e.kind == kind && e.to in ids.Values
  {
    if refs == [] then []
    else
      var key := NsName(namespace, refs[|refs| - 1]);
      RefEdges(from, kind, namespace, refs[..|refs| - 1], ids)
      + if key in ids then [NewEdge(from, ids[key], kind)] else []
  }

  function ScheduledEdges(podID: CanonicalID, p: KubePod, nodeIDs: map<string, CanonicalID>): seq<Edge> {
    if p.nodeName != "" && p.nodeName in nodeIDs then [NewEdge(podID, nodeIDs[p.nodeName], ScheduledOn)] else []
  }

  function ServiceAccountEdges(podID: CanonicalID, p: KubePod, accounts: map<string, CanonicalID>): seq<Edge> {
    var key := NsName(p.meta.namespace, p.serviceAccount);
    if p.serviceAccount != "" && key in accounts then [NewEdge(podID, accounts[key], UsesServiceAccount)] else []
  }

  function OwnerEdges(podID: CanonicalID, targets: seq<WorkloadTarget>): (es: seq<Edge>)
    ensures forall e | e in es :: (e.kind == ManagedBy && e.from == podID) || (e.kind == OwnsPod && e.to == podID)
  {
    if targets == [] then []
    else
      var t := targets[|targets| - 1];
      OwnerEdges(podID, targets[..|targets| - 1]) + [NewEdge(podID, t.id, ManagedBy), NewEdge(t.id, podID, OwnsPod)]
  }

  /** The name maps one pass over the pods consults. */
  datatype PodMaps = PodMaps(
    nodes: map<string, CanonicalID>, configMaps: map<string, CanonicalID>, secrets: map<string, CanonicalID>,
    pvcs: map<string, CanonicalID>, accounts: map<string, CanonicalID>, owners: Resolver)

  function PodMapsOf(c: Text, s: Snapshot): PodMaps {
    PodMaps(NodeIDs(c, s.nodes), ConfigMapIDs(c, s.configMaps), SecretIDs(c, s.secrets), PVCIDs(c, s.pvcs),
            ServiceAccountIDs(c, s.serviceAccounts), NewChainResolver(c, s.workloads, s.replicaSets))
  }

  function PodTargets(m: PodMaps, p: KubePod): seq<WorkloadTarget> {
    ResolveReferences(m.owners, p.meta.namespace, p.ownerReferences)
  }

  function PodEdges(m: PodMaps, podID: CanonicalID, p: KubePod): seq<Edge> {
    ScheduledEdges(podID, p, m.nodes)
    + RefEdges(podID, UsesConfigMap, p.meta.namespace, p.configMapRefs, m.configMaps)
    + RefEdges(podID, UsesSecret, p.meta.namespace, p.secretRefs, m.secrets)
    + RefEdges(podID, MountsPVC, p.meta.namespace, p.pvcRefs, m.pvcs)
    + ServiceAccountEdges(podID, p, m.accounts)
    + OwnerEdges(podID, PodTargets(m, p))
  }

  /** The identifier Build uses for a pod: the last one listed under its name. */
  function ListedPodID(c: Text, ids: map<string, CanonicalID>, p: KubePod): CanonicalID {
    if MetaKey(p.meta) in ids then ids[MetaKey(p.meta)] else ""
  }

  function PodEdgesF(c: Text, s: Snapshot): KubePod -> seq<Edge> {
    var m, ids := PodMapsOf(c, s), PodIDs(c, s.pods);
    (p: KubePod) => PodEdges(m, ListedPodID(c, ids, p), p)
  }

  function SubjectValue(values: seq<Text>, index: nat): string {
    if index < |values| then TrimSpace(values[index]) else ""
  }

  /** The edges of the first n subjects that are known service accounts. */
  function SubjectEdges(bindingID: CanonicalID, b: KubeBinding, defaultNamespace: string, accounts: map<string, CanonicalID>, n: nat): (es: seq<Edge>)
    requires n <= |b.subjectKinds|
    ensures forall e | e in es :: e.kind == BoundByRoleBinding && e.to == bindingID && e.from in accounts.Values
  {
    if n == 0 then []
    else
      var i := n - 1;
      var listed := SubjectValue(b.subjectNamespaces, i);
      var namespace, name := if listed != "" then listed else defaultNamespace, SubjectValue(b.subjectNames, i);
      SubjectEdges(bindingID, b, defaultNamespace, accounts, i)
      + if EqualFoldAscii(TrimSpace(b.subjectKinds[i]), "ServiceAccount") && namespace != "" && name != ""
           && NsName(namespace, name) in accounts
        then [NewEdge(accounts[NsName(namespace, name)], bindingID, BoundByRoleBinding)] else []
  }

  /** A RoleBinding's subjects default to its own namespace; a ClusterRoleBinding's have no default. */
  function RoleBindingEdgesF(c: Text, s: Snapshot): KubeBinding -> seq<Edge> {
    var ids, accounts := RoleBindingIDs(c, s.roleBindings), ServiceAccountIDs(c, s.serviceAccounts);
    (b: KubeBinding) =>
      if MetaKey(b.meta) in ids then SubjectEdges(ids[MetaKey(b.meta)], b, b.meta.namespace, accounts, |b.subjectKinds|) else []
  }

  function ClusterRoleBindingEdgesF(c: Text, s: Snapshot): KubeBinding -> seq<Edge> {
    var ids, accounts := ClusterRoleBindingIDs(c, s.clusterRoleBindings), ServiceAccountIDs(c, s.serviceAccounts);
    (b: KubeBinding) =>
      if b.meta.name in ids then SubjectEdges(ids[b.meta.name], b, "", accounts, |b.subjectKinds|) else []
  }

  function ControlledByEdges(childID: CanonicalID, targets: seq<WorkloadTarget>): (es: seq<Edge>)
    ensures forall e | e in es :: e.kind == ControlledBy && e.from == childID && e.to != childID
  {
    if targets == [] then []
    else
      var t := targets[|targets| - 1];
      ControlledByEdges(childID, targets[..|targets| - 1]) + if t.id == childID then [] else [NewEdge(childID, t.id, ControlledBy)]
  }

  function WorkloadEdgesF(c: Text, s: Snapshot): KubeWorkload -> seq<Edge> {
    var owners := NewChainResolver(c, s.workloads, s.replicaSets);
    (w: KubeWorkload) => ControlledByEdges(WorkloadID(c, w), ResolveReferences(owners, w.meta.namespace, w.ownerReferences))
  }

  /** The claim's own class, or that of the first volume it names. */
  function StorageClassNameForPVC(pvc: KubePVC, pvs: seq<KubePV>): Text {
    if pvc.storageClassName != "" then pvc.storageClassName
    else if pvc.volumeName == "" || pvs == [] then ""
    else if pvs[0].meta.name == pvc.volumeName then pvs[0].storageClassName
    else StorageClassNameForPVC(pvc, pvs[1..])
  }

  datatype StorageMaps = StorageMaps(
    pvcs: map<string, CanonicalID>, pvs: map<string, CanonicalID>, classes: map<string, CanonicalID>, drivers: map<string, CanonicalID>)

  function StorageMapsOf(c: Text, rules: seq<CSIRule>, s: Snapshot): StorageMaps {
    StorageMaps(PVCIDs(c, s.pvcs), PVIDs(c, s.pvs), StorageClassIDs(c, s.storageClasses), CSIDriverIDs(c, rules, s))
  }

  function PVCEdgesF(m: StorageMaps, s: Snapshot): KubePVC -> seq<Edge> {
    (p: KubePVC) =>
      if MetaKey(p.meta) !in m.pvcs then []
      else
        var id, className := m.pvcs[MetaKey(p.meta)], StorageClassNameForPVC(p, s.pvs);
        (if p.volumeName != "" && p.volumeName in m.pvs then [NewEdge(id, m.pvs[p.volumeName], BoundToPV)] else [])
        + if className != "" && className in m.classes
          then [Edge(id, m.classes[className], UsesStorageClass,
                     if p.storageClassName == "" then "pvc-bound-pv-storageclass/v1" else "pvc-storageclass/v1")]
          else []
  }

  function PVEdgesF(m: StorageMaps): KubePV -> seq<Edge> {
    (p: KubePV) =>
      if p.storageClassName != "" && p.meta.name in m.pvs && p.storageClassName in m.classes
      then [Edge(m.pvs[p.meta.name], m.classes[p.storageClassName], UsesStorageClass, "pv-storageclass/v1")] else []
  }

  function StorageClassEdgesF(m: StorageMaps): KubeStorageClass -> seq<Edge> {
    (x: KubeStorageClass) =>
      if x.provisioner != "" && x.meta.name in m.classes && x.provisioner in m.drivers
      then [NewEdge(m.classes[x.meta.name], m.drivers[x.provisioner], ProvisionedByCSIDriver)] else []
  }

  function CsiValue(pv: KubePV, key: string): string {
    if key in pv.csi then pv.csi[key] else ""
  }

  predicate ConsumesPVC(pod: KubePod, pvc: KubePVC) {
    pod.meta.namespace == pvc.meta.namespace && pod.nodeName != "" && pvc.meta.name in pod.pvcRefs
  }

  function ConsumerF(pvc: KubePVC): KubePod -> seq<string> {
    (pod: KubePod) => if ConsumesPVC(pod, pvc) then [pod.nodeName] else []
  }

  function ConsumersF(pv: KubePV, pods: seq<KubePod>): KubePVC -> seq<string> {
    (pvc: KubePVC) => if pvc.volumeName == pv.meta.name then Flat(pods, ConsumerF(pvc)) else []
  }

  /** The volume's node affinity and the nodes of the pods that mount a claim bound to it. */
  function AgentNodeNames(pv: KubePV, s: Snapshot): seq<string> {
    NormalizeNodeNames([CsiValue(pv, "nodeAffinity")] + Flat(s.pvcs, ConsumersF(pv, s.pods)))
  }

  function PVComponentEdgesF(m: StorageMaps, rules: seq<CSIRule>, s: Snapshot, infraPods: seq<Node>): KubePV -> seq<Edge> {
    (pv: KubePV) =>
      if pv.meta.name !in m.pvs || CsiValue(pv, "driver") == "" then []
      else match Correlator(CsiValue(pv, "driver"), rules)
           case NoRule => []
           case Rule(rule) => CorrelatePVToCSIComponents(rule, m.pvs[pv.meta.name], AgentNodeNames(pv, s), infraPods)
  }

  function DriverEdgesF(m: StorageMaps, rules: seq<CSIRule>, infraPods: seq<Node>, names: map<string, string>): string -> seq<Edge> {
    (d: string) =>
      if d in m.drivers && d in names then InferCSIComponentEdges(m.drivers[d], names[d], infraPods, rules) else []
  }

  function SelectEdges(serviceID: CanonicalID, v: KubeService, ids: map<string, CanonicalID>): KubePod -> seq<Edge> {
    (p: KubePod) =>
      if p.meta.namespace == v.meta.namespace && LabelsMatch(v.selector, p.meta.labels) && MetaKey(p.meta) in ids
      then [NewEdge(serviceID, ids[MetaKey(p.meta)], SelectsPod)] else []
  }

  function ServiceEdgesF(c: Text, s: Snapshot): KubeService -> seq<Edge> {
    var services, pods := ServiceIDs(c, s.services), PodIDs(c, s.pods);
    (v: KubeService) =>
      if MetaKey(v.meta) in services then Flat(s.pods, SelectEdges(services[MetaKey(v.meta)], v, pods)) else []
  }

  /** The workloads that failed-creation events are about, one entry per event. */
  function BlockedWorkloads(events: seq<KubeEvent>, workloads: map<string, CanonicalID>): seq<CanonicalID> {
    if events == [] then []
    else
      var e := events[|events| - 1];
      var key := NsName(e.meta.namespace, e.involvedName);
      BlockedWorkloads(events[..|events| - 1], workloads)
      + if (e.reason == "FailedCreate" || e.reason == "FailedAdmission") && key in workloads then [workloads[key]] else []
  }

  /** One edge per blocked workload, to an arbitrary webhook: the source takes the first in map order. */
  ghost predicate IsEvidence(evidence: seq<Edge>, blocked: seq<CanonicalID>, webhooks: set<CanonicalID>) {
    if webhooks == {} then evidence == []
    else |evidence| == |blocked| && forall i | 0 <= i < |evidence| ::
           evidence[i].to in webhooks && evidence[i] == NewEdge(blocked[i], evidence[i].to, AffectedByWebhook)
  }

  ghost predicate IsEnumeration(order: seq<string>, m: map<string, CanonicalID>) {
    Distinct(order) && forall d :: d in order <==> d in m
  }

  function EdgesBeforeStorage(c: Text, x: Inferred, s: Snapshot): seq<Edge> {
    Flat(s.pods, ImageEdgesF(c)) + x.helmEdges + Flat(s.events, EventEdgesF(c, s)) + Flat(s.pods, PodEdgesF(c, s))
    + Flat(s.roleBindings, RoleBindingEdgesF(c, s)) + Flat(s.clusterRoleBindings, ClusterRoleBindingEdgesF(c, s))
    + Flat(s.workloads, WorkloadEdgesF(c, s)) + x.controllerEdges
  }

  /** Claims, volumes, classes and components; `order` is the map order in which the drivers came up. */
  function StorageEdges(m: StorageMaps, rules: seq<CSIRule>, s: Snapshot, infraPods: seq<Node>, order: seq<string>, names: map<string, string>): seq<Edge> {
    Flat(s.pvcs, PVCEdgesF(m, s)) + Flat(s.pvs, PVEdgesF(m)) + Flat(s.storageClasses, StorageClassEdgesF(m))
    + Flat(s.pvs, PVComponentEdgesF(m, rules, s, infraPods)) + Flat(order, DriverEdgesF(m, rules, infraPods, names))
  }

  function BuildDriverNames(c: Text, rules: seq<CSIRule>, x: Inferred, s: Snapshot): map<string, string> {
    var ids, nodes := CSIDriverIDs(c, rules, s), BuildNodes(c, rules, x, s);
    map d | d in ids :: DriverName(nodes, ids[d], d)
  }

  function BuildEdges(c: Text, rules: seq<CSIRule>, x: Inferred, s: Snapshot, order: seq<string>, evidence: seq<Edge>): seq<Edge> {
    EdgesBeforeStorage(c, x, s)
    + StorageEdges(StorageMapsOf(c, rules, s), rules, s, PodsAmong(BuildNodes(c, rules, x, s)), order, BuildDriverNames(c, rules, x, s))
    + Flat(s.services, ServiceEdgesF(c, s)) + evidence
  }

  /** The graph a bootstrap loads. */
  function Rebuilt(c: Text, rules: seq<CSIRule>, x: Inferred, s: Snapshot, order: seq<string>, evidence: seq<Edge>): Graph {
    EMPTY_GRAPH.WithAll(BuildNodes(c, rules, x, s), BuildEdges(c, rules, x, s, order, evidence))
  }

  // ---- The pass as the source runs it ----

  /** Driver identifiers are settled by the time the class that names them has been processed. */
  lemma {:induction false} SyntheticSettles(c: Text, rules: seq<CSIRule>, observed: map<string, CanonicalID>, scs: seq<KubeStorageClass>, i: nat)
    requires i < |scs|
    ensures var now, final := WithSynthetic(c, rules, observed, scs[..i + 1]), WithSynthetic(c, rules, observed, scs);
            && (forall d | d in now :: d in final && final[d] == now[d])
            && (scs[i].provisioner in final && scs[i].provisioner != "" ==> scs[i].provisioner in now)
    decreases |scs|
  {
    var init := scs[..|scs| - 1];
    if i == |scs| - 1 {
      assert scs[..i + 1] == scs;
    } else {
      SyntheticSettles(c, rules, observed, init, i);
      assert init[..i + 1] == scs[..i + 1] && init[i] == scs[i];
      var now, final := WithSynthetic(c, rules, observed, scs[..i + 1]), WithSynthetic(c, rules, observed, scs);
      if scs[i].provisioner != "" && scs[i].provisioner !in now {
        assert scs[..i + 1][..i] == scs[..i];
        assert !IsCSIProvisioner(scs[i].provisioner, false, rules);
      }
    }
  }

  lemma StorageClassStep(c: Text, rules: seq<CSIRule>, s: Snapshot, i: nat)
    requires i < |s.storageClasses|
    ensures var scs, observed, f := s.storageClasses, ObservedDriverIDs(c, s.csiDrivers), StorageClassEdgesF(StorageMapsOf(c, rules, s));
            var sc, classes := scs[i], StorageClassIDs(c, scs);
            var before, after := WithSynthetic(c, rules, observed, scs[..i]), WithSynthetic(c, rules, observed, scs[..i + 1]);
            && after == (if MakesDriver(before, rules, sc) then before[sc.provisioner := CSIDriverID(c, sc.provisioner, "")] else before)
            && SyntheticNodes(c, rules, observed, scs[..i + 1]) == SyntheticNodes(c, rules, observed, scs[..i])
               + (if MakesDriver(before, rules, sc) then [SyntheticCSIDriverNode(c, sc.provisioner)] else [])
            && Flat(scs[..i + 1], f) == Flat(scs[..i], f)
               + (if sc.provisioner != "" && sc.meta.name in classes && sc.provisioner in after
                  then [NewEdge(classes[sc.meta.name], after[sc.provisioner], ProvisionedByCSIDriver)] else [])
  {
    hide ObservedDriverIDs, StorageClassIDs, PVCIDs, PVIDs, IsCSIProvisioner, CSIDriverID, SyntheticCSIDriverNode;
    SyntheticSettles(c, rules, ObservedDriverIDs(c, s.csiDrivers), s.storageClasses, i);
    FlatStep(s.storageClasses, i, StorageClassEdgesF(StorageMapsOf(c, rules, s)));
    assert s.storageClasses[..i + 1][..i] == s.storageClasses[..i];
  }

  /** The loop over the storage classes: grows the driver map, and appends nodes and edges as it goes. */
  method StorageClassPass(c: Text, rules: seq<CSIRule>, s: Snapshot, nodes0: seq<Node>, edges0: seq<Edge>)
    returns (nodes: seq<Node>, edges: seq<Edge>, drivers: map<string, CanonicalID>)
    ensures drivers == CSIDriverIDs(c, rules, s)
    ensures nodes == nodes0 + SyntheticNodes(c, rules, ObservedDriverIDs(c, s.csiDrivers), s.storageClasses)
    ensures edges == edges0 + Flat(s.storageClasses, StorageClassEdgesF(StorageMapsOf(c, rules, s)))
  {
    hide ObservedDriverIDs, StorageClassIDs, PVCIDs, PVIDs, IsCSIProvisioner, CSIDriverID, SyntheticCSIDriverNode,
         StorageClassEdgesF, StorageMapsOf;
    var scs, observed := s.storageClasses, ObservedDriverIDs(c, s.csiDrivers);
    var classes := StorageClassIDs(c, s.storageClasses);
    nodes, edges, drivers := nodes0, edges0, observed;
    ghost var f := StorageClassEdgesF(StorageMapsOf(c, rules, s));
    for i := 0 to |scs|
      invariant drivers == WithSynthetic(c, rules, observed, scs[..i])
      invariant nodes == nodes0 + SyntheticNodes(c, rules, observed, scs[..i])
      invariant edges == edges0 + Flat(scs[..i], f)
    {
      StorageClassStep(c, rules, s, i);
      hide WithSynthetic, SyntheticNodes, Flat;
      var sc := scs[i];
      if sc.provisioner == "" {
        continue;
      }
      if sc.provisioner !in drivers {
        if !IsCSIProvisioner(sc.provisioner, false, rules) {
          continue;
        }
        var id := CSIDriverID(c, sc.provisioner, "");
        drivers := drivers[sc.provisioner := id];
        nodes := nodes + [SyntheticCSIDriverNode(c, sc.provisioner)];
      }
      if sc.meta.name in classes {
        edges := edges + [NewEdge(classes[sc.meta.name], drivers[sc.provisioner], ProvisionedByCSIDriver)];
      }
    }
    PrefixEnds(scs);
  }

  /** Drivers come up in map order. */
  method DriverPass(m: StorageMaps, rules: seq<CSIRule>, infraPods: seq<Node>, names: map<string, string>)
    returns (edges: seq<Edge>, ghost order: seq<string>)
    ensures IsEnumeration(order, m.drivers) && edges == Flat(order, DriverEdgesF(m, rules, infraPods, names))
  {
    hide InferCSIComponentEdges;
    edges, order := [], [];
    ghost var f := DriverEdgesF(m, rules, infraPods, names);
    var rest := m.drivers.Keys;
    while rest != {}
      invariant rest <= m.drivers.Keys && Distinct(order)
      invariant forall d :: d in order <==> d in m.drivers && d !in rest
      invariant edges == Flat(order, f)
    {
      var d :| d in rest;
      assert (order + [d])[..|order|] == order;
      edges := edges + if d in names then InferCSIComponentEdges(m.drivers[d], names[d], infraPods, rules) else [];
      order, rest := order + [d], rest - {d};
    }
  }

  /** For each blocked workload the source takes whichever webhook the map yields first. */
  method EvidencePass(blocked: seq<CanonicalID>, webhooks: set<CanonicalID>) returns (evidence: seq<Edge>)
    ensures IsEvidence(evidence, blocked, webhooks)
  {
    evidence := [];
    if webhooks == {} {
      return;
    }
    for i := 0 to |blocked|
      invariant |evidence| == i
      invariant forall j | 0 <= j < i :: evidence[j].to in webhooks && evidence[j] == NewEdge(blocked[j], evidence[j].to, AffectedByWebhook)
    {
      var w :| w in webhooks;
      evidence := evidence + [NewEdge(blocked[i], w, AffectedByWebhook)];
    }
  }

  method CollectPods(nodes: seq<Node>) returns (pods: seq<Node>)
    ensures pods == PodsAmong(nodes)
  {
    pods := [];
    for i := 0 to |nodes|
      invariant pods == PodsAmong(nodes[..i])
    {
      assert nodes[..i + 1][..i] == nodes[..i];
      if nodes[i].kind == Pod {
        pods := pods + [nodes[i]];
      }
    }
    PrefixEnds(nodes);
  }

  method NodesPass(c: Text, x: Inferred, s: Snapshot) returns (nodes: seq<Node>)
    ensures nodes == NodesBeforeStorage(c, s) + IdentityNodes(c, s) + ObservedStorageNodes(c, s)
                     + Flat(s.webhookConfigs, WebhookNodeF(c)) + x.helmNodes + Flat(s.events, EventNodeF(c))
  {
    hide Flat;
    nodes := Append([], s.workloads, WorkloadNodeF(c));
    nodes := Append(nodes, s.pods, PodAndImagesF(c));
    nodes := Append(nodes, s.nodes, KubeNodeF(c));
    nodes := Append(nodes, s.services, ServiceNodeF(c));
    nodes := Append(nodes, s.configMaps, ConfigMapNodeF(c));
    nodes := Append(nodes, s.secrets, SecretNodeF(c));
    var identity := Append([], s.serviceAccounts, ServiceAccountNodeF(c));
    identity := Append(identity, s.roleBindings, RoleBindingNodeF(c));
    identity := Append(identity, s.clusterRoleBindings, ClusterRoleBindingNodeF(c));
    var storage := Append([], s.pvcs, PVCNodeF(c));
    storage := Append(storage, s.pvs, PVNodeF(c));
    storage := Append(storage, s.storageClasses, StorageClassNodeF(c));
    storage := Append(storage, s.csiDrivers, CSIDriverNodeF(c));
    nodes := Append(nodes + identity + storage, s.webhookConfigs, WebhookNodeF(c));
    nodes := Append(nodes + x.helmNodes, s.events, EventNodeF(c));
  }

  method EdgesPass(c: Text, x: Inferred, s: Snapshot) returns (edges: seq<Edge>)
    ensures edges == EdgesBeforeStorage(c, x, s)
  {
    hide Flat, EventEdgesF, PodEdgesF, RoleBindingEdgesF, ClusterRoleBindingEdgesF, WorkloadEdgesF, ImageEdgesF;
    edges := Append([], s.pods, ImageEdgesF(c));
    edges := Append(edges + x.helmEdges, s.events, EventEdgesF(c, s));
    edges := Append(edges, s.pods, PodEdgesF(c, s));
    edges := Append(edges, s.roleBindings, RoleBindingEdgesF(c, s));
    edges := Append(edges, s.clusterRoleBindings, ClusterRoleBindingEdgesF(c, s));
    edges := Append(edges, s.workloads, WorkloadEdgesF(c, s));
    edges := edges + x.controllerEdges;
  }

  method Build(c: Text, rules: seq<CSIRule>, x: Inferred, s: Snapshot)
    returns (nodes: seq<Node>, edges: seq<Edge>, ghost order: seq<string>, ghost evidence: seq<Edge>)
    ensures nodes == BuildNodes(c, rules, x, s) && edges == BuildEdges(c, rules, x, s, order, evidence)
    ensures IsEnumeration(order, CSIDriverIDs(c, rules, s))
    ensures IsEvidence(evidence, BlockedWorkloads(s.events, WorkloadIDs(c, s.workloads)), WebhookIDs(c, s.webhookConfigs).Values)
  {
    var m := StorageMapsOf(c, rules, s);
    var blocked, webhooks := BlockedWorkloads(s.events, WorkloadIDs(c, s.workloads)), WebhookIDs(c, s.webhookConfigs).Values;
    hide Flat, EdgesBeforeStorage, NodesBeforeStorage, IdentityNodes, ObservedStorageNodes, CSIDriverIDs, PVCIDs, PVIDs, StorageClassIDs,
         IsEvidence, IsEnumeration, BlockedWorkloads, WorkloadIDs, WebhookIDs, PodsAmong, DriverName;
    nodes := NodesPass(c, x, s);
    var before := EdgesPass(c, x, s);
    var storage := Append([], s.pvcs, PVCEdgesF(m, s));
    storage := Append(storage, s.pvs, PVEdgesF(m));
    var drivers;
    nodes, storage, drivers := StorageClassPass(c, rules, s, nodes, storage);
    var infraPods := CollectPods(nodes);
    storage := Append(storage, s.pvs, PVComponentEdgesF(m, rules, s, infraPods));
    var names := BuildDriverNames(c, rules, x, s);
    var components;
    components, order := DriverPass(m, rules, infraPods, names);
    evidence := [];
    edges := Append(before + (storage + components), s.services, ServiceEdgesF(c, s));
    var affected := EvidencePass(blocked, webhooks);
    evidence := affected;
    edges := edges + affected;
  }
}
