/** Normalised Kubernetes objects, the snapshot holding them, and the nodes and identifiers they get. */
module Resources {
  import opened Identity
  import opened GraphModel

  type Labels = map<string, string>

  datatype Metadata = Metadata(uid: Text, name: Text, namespace: Text, labels: Labels)

  datatype OwnerReference = OwnerReference(apiVersion: string, kind: string, name: string, uid: string, controller: bool)

  datatype KubeWorkload = KubeWorkload(
    meta: Metadata, apiVersion: string, controllerKind: Text, replicas: int, conditions: Labels,
    ownerReferences: seq<OwnerReference>)

  datatype KubeReplicaSet = KubeReplicaSet(
    meta: Metadata, replicas: int, conditions: Labels, ownerReferences: seq<OwnerReference>)

  datatype KubePod = KubePod(
    meta: Metadata, nodeName: Text, serviceAccount: Text, ownerReferences: seq<OwnerReference>,
    containerImages: seq<Text>, configMapRefs: seq<Text>, secretRefs: seq<Text>, pvcRefs: seq<Text>,
    phase: string, reason: string)

  datatype KubeNode = KubeNode(meta: Metadata, conditions: Labels)

  datatype KubeService = KubeService(meta: Metadata, selector: Labels)

  /** ConfigMaps, Secrets, ServiceAccounts and CSIDrivers carry nothing but metadata. */
  datatype KubeNamed = KubeNamed(meta: Metadata)

  /** A RoleBinding or a ClusterRoleBinding. */
  datatype KubeBinding = KubeBinding(
    meta: Metadata, roleRef: string, subjectKinds: seq<Text>, subjectNames: seq<Text>, subjectNamespaces: seq<Text>)

  datatype KubePVC = KubePVC(meta: Metadata, volumeName: Text, storageClassName: Text, status: string)

  datatype KubePV = KubePV(meta: Metadata, storageClassName: Text, status: string, csi: Labels)

  datatype KubeStorageClass = KubeStorageClass(
    meta: Metadata, provisioner: Text, reclaimPolicy: string, volumeBindingMode: string)

  datatype KubeEvent = KubeEvent(
    meta: Metadata, involvedKind: Text, involvedName: Text, involvedUID: Text, reason: string, message: string)

  datatype KubeWebhookConfig = KubeWebhookConfig(meta: Metadata, kind: string)

  datatype Snapshot = Snapshot(
    workloads: seq<KubeWorkload>, replicaSets: seq<KubeReplicaSet>, pods: seq<KubePod>, nodes: seq<KubeNode>,
    services: seq<KubeService>, configMaps: seq<KubeNamed>, secrets: seq<KubeNamed>, serviceAccounts: seq<KubeNamed>,
    roleBindings: seq<KubeBinding>, clusterRoleBindings: seq<KubeBinding>, pvcs: seq<KubePVC>, pvs: seq<KubePV>,
    storageClasses: seq<KubeStorageClass>, csiDrivers: seq<KubeNamed>, events: seq<KubeEvent>,
    webhookConfigs: seq<KubeWebhookConfig>)

  /** The key of the name maps for namespaced kinds. */
  function NsName(namespace: string, name: string): string {
    namespace + "/" + name
  }

  function MetaKey(meta: Metadata): string {
    NsName(meta.namespace, meta.name)
  }

  /** Identifiers: namespaced kinds carry their namespace, cluster-wide kinds leave it empty. */
  function NamespacedID(cluster: Text, group: Text, kind: NodeKind, meta: Metadata): (id: CanonicalID)
    ensures KindTag(id) == NodeKindName(kind)
  {
    ResourceID(cluster, group, kind, meta.namespace, meta.name, meta.uid)
  }

  function ClusterID(cluster: Text, group: Text, kind: NodeKind, meta: Metadata): (id: CanonicalID)
    ensures KindTag(id) == NodeKindName(kind)
  {
    ResourceID(cluster, group, kind, "", meta.name, meta.uid)
  }

  function WorkloadIDOf(cluster: Text, namespace: Text, controllerKind: Text, name: Text, uid: Text): (id: CanonicalID)
    ensures KindTag(id) == NodeKindName(Workload)
  {
    ResourceID(cluster, "apps", Workload, namespace, controllerKind + ":" + name, uid)
  }

  function WorkloadID(c: Text, w: KubeWorkload): CanonicalID {
    WorkloadIDOf(c, w.meta.namespace, w.controllerKind, w.meta.name, w.meta.uid)
  }
  function PodID(c: Text, p: KubePod): CanonicalID { NamespacedID(c, "core", Pod, p.meta) }
  function NodeID(c: Text, n: KubeNode): CanonicalID { ClusterID(c, "core", NodeKindNode, n.meta) }
  function ServiceID(c: Text, s: KubeService): CanonicalID { NamespacedID(c, "core", Service, s.meta) }
  function ConfigMapID(c: Text, x: KubeNamed): CanonicalID { NamespacedID(c, "core", ConfigMap, x.meta) }
  function SecretID(c: Text, x: KubeNamed): CanonicalID { NamespacedID(c, "core", Secret, x.meta) }
  function ServiceAccountID(c: Text, x: KubeNamed): CanonicalID { NamespacedID(c, "core", ServiceAccount, x.meta) }
  function RoleBindingID(c: Text, b: KubeBinding): CanonicalID {
    NamespacedID(c, "rbac.authorization.k8s.io", RoleBinding, b.meta)
  }
  function ClusterRoleBindingID(c: Text, b: KubeBinding): CanonicalID {
    ClusterID(c, "rbac.authorization.k8s.io", ClusterRoleBinding, b.meta)
  }
  function PVCID(c: Text, p: KubePVC): CanonicalID { NamespacedID(c, "core", PVC, p.meta) }
  function PVID(c: Text, p: KubePV): CanonicalID { ClusterID(c, "core", PV, p.meta) }
  function StorageClassID(c: Text, s: KubeStorageClass): CanonicalID { ClusterID(c, "storage.k8s.io", StorageClass, s.meta) }
  function CSIDriverID(c: Text, name: Text, uid: Text): (id: CanonicalID)
    ensures KindTag(id) == NodeKindName(CSIDriver)
  {
    ResourceID(c, "storage.k8s.io", CSIDriver, "", name, uid)
  }
  function EventID(c: Text, e: KubeEvent): CanonicalID { NamespacedID(c, "core", Event, e.meta) }
  function WebhookID(c: Text, w: KubeWebhookConfig): CanonicalID {
    ClusterID(c, "admissionregistration.k8s.io", WebhookConfig, w.meta)
  }
  function ImageID(c: Text, image: Text): (id: CanonicalID)
    ensures KindTag(id) == NodeKindName(Image)
  {
    ResourceID(c, "core", Image, "", image, "")
  }

  function WorkloadNode(c: Text, w: KubeWorkload): Node {
    Node(WorkloadID(c, w), Workload, w.controllerKind, w.meta.name, w.meta.namespace,
         map["apiVersion" := Str(w.apiVersion), "replicas" := Int(w.replicas), "conditions" := Table(w.conditions)])
  }
  function PodNode(c: Text, p: KubePod): Node {
    Node(PodID(c, p), Pod, "Pod", p.meta.name, p.meta.namespace,
         map["phase" := Str(p.phase), "reason" := Str(p.reason), "nodeName" := Str(p.nodeName)])
  }
  function KubeNodeNode(c: Text, n: KubeNode): Node {
    Node(NodeID(c, n), NodeKindNode, "Node", n.meta.name, "", map["conditions" := Table(n.conditions)])
  }
  function ServiceNode(c: Text, s: KubeService): Node {
    Node(ServiceID(c, s), Service, "Service", s.meta.name, s.meta.namespace, map["selector" := Table(s.selector)])
  }
  function ConfigMapNode(c: Text, x: KubeNamed): Node {
    Node(ConfigMapID(c, x), ConfigMap, "ConfigMap", x.meta.name, x.meta.namespace, map[])
  }
  function SecretNode(c: Text, x: KubeNamed): Node {
    Node(SecretID(c, x), Secret, "Secret", x.meta.name, x.meta.namespace, map[])
  }
  function ServiceAccountNode(c: Text, x: KubeNamed): Node {
    Node(ServiceAccountID(c, x), ServiceAccount, "ServiceAccount", x.meta.name, x.meta.namespace, map[])
  }
  function BindingAttributes(b: KubeBinding): map<string, Value> {
    map["roleRef" := Str(b.roleRef), "subjectKinds" := Texts(b.subjectKinds), "subjectNames" := Texts(b.subjectNames),
        "subjectNamespaces" := Texts(b.subjectNamespaces)]
  }
  function RoleBindingNode(c: Text, b: KubeBinding): Node {
    Node(RoleBindingID(c, b), RoleBinding, "RoleBinding", b.meta.name, b.meta.namespace, BindingAttributes(b))
  }
  function ClusterRoleBindingNode(c: Text, b: KubeBinding): Node {
    Node(ClusterRoleBindingID(c, b), ClusterRoleBinding, "ClusterRoleBinding", b.meta.name, "", BindingAttributes(b))
  }
  function PVCNode(c: Text, p: KubePVC): Node {
    Node(PVCID(c, p), PVC, "PersistentVolumeClaim", p.meta.name, p.meta.namespace,
         map["status" := Str(p.status), "storageClassName" := Str(p.storageClassName)])
  }
  function PVNode(c: Text, p: KubePV): Node {
    Node(PVID(c, p), PV, "PersistentVolume", p.meta.name, "",
         map["status" := Str(p.status), "storageClassName" := Str(p.storageClassName), "csi" := Table(p.csi)])
  }
  function StorageClassNode(c: Text, s: KubeStorageClass): Node {
    Node(StorageClassID(c, s), StorageClass, "StorageClass", s.meta.name, "",
         map["provisioner" := Str(s.provisioner), "reclaimPolicy" := Str(s.reclaimPolicy),
             "volumeBindingMode" := Str(s.volumeBindingMode)])
  }
  function CSIDriverNode(c: Text, d: KubeNamed): Node {
    Node(CSIDriverID(c, d.meta.name, d.meta.uid), CSIDriver, "CSIDriver", d.meta.name, "", map[])
  }
  /** The node of a driver known only as some storage class's provisioner. */
  function SyntheticCSIDriverNode(c: Text, name: Text): Node {
    Node(CSIDriverID(c, name, ""), CSIDriver, "CSIDriver", name, "", map["inferredFromStorageClass" := Flag(true)])
  }
  function EventNode(c: Text, e: KubeEvent): Node {
    Node(EventID(c, e), Event, "Event", e.meta.name, e.meta.namespace,
         map["reason" := Str(e.reason), "message" := Str(e.message)])
  }
  function WebhookNode(c: Text, w: KubeWebhookConfig): Node {
    Node(WebhookID(c, w), WebhookConfig, w.kind, w.meta.name, "", map[])
  }

  /** selector.LabelsMatch: a missing label reads as the empty string. */
  predicate LabelsMatch(selector: Labels, labels: Labels) {
    selector != map[] && forall key | key in selector :: selector[key] == if key in labels then labels[key] else ""
  }

  /** A map from names to identifiers filled in list order: the last entry under a name wins. */
  function Index<T>(xs: seq<T>, key: T -> string, id: T -> CanonicalID): map<string, CanonicalID> {
    if xs == [] then map[] else Index(xs[..|xs| - 1], key, id)[key(xs[|xs| - 1]) := id(xs[|xs| - 1])]
  }

  lemma {:induction false} IndexMembers<T>(xs: seq<T>, key: T -> string, id: T -> CanonicalID)
    ensures forall k | k in Index(xs, key, id) :: exists x | x in xs :: key(x) == k && id(x) == Index(xs, key, id)[k]
    ensures forall x | x in xs :: key(x) in Index(xs, key, id)
  {
    if xs != [] {
      IndexMembers(xs[..|xs| - 1], key, id);
      assert xs == xs[..|xs| - 1] + [xs[|xs| - 1]];
    }
  }

  /** Where keys are unique the map gives every entry its own identifier. */
  lemma {:induction false} IndexIsExact<T>(xs: seq<T>, key: T -> string, id: T -> CanonicalID, x: T)
    requires x in xs && forall y | y in xs && key(y) == key(x) :: id(y) == id(x)
    ensures key(x) in Index(xs, key, id) && Index(xs, key, id)[key(x)] == id(x)
  {
    IndexMembers(xs, key, id);
  }

  // The name maps of the source, as functions of one list each.
  function WorkloadIDs(c: Text, xs: seq<KubeWorkload>): map<string, CanonicalID> { Index(xs, WorkloadKeyF(), WorkloadIDF(c)) }
  function PodIDs(c: Text, xs: seq<KubePod>): map<string, CanonicalID> { Index(xs, PodKeyF(), PodIDF(c)) }
  function NodeIDs(c: Text, xs: seq<KubeNode>): map<string, CanonicalID> { Index(xs, NodeKeyF(), NodeIDF(c)) }
  function ConfigMapIDs(c: Text, xs: seq<KubeNamed>): map<string, CanonicalID> { Index(xs, NamedKeyF(), ConfigMapIDF(c)) }
  function SecretIDs(c: Text, xs: seq<KubeNamed>): map<string, CanonicalID> { Index(xs, NamedKeyF(), SecretIDF(c)) }
  function ServiceAccountIDs(c: Text, xs: seq<KubeNamed>): map<string, CanonicalID> { Index(xs, NamedKeyF(), ServiceAccountIDF(c)) }
  function RoleBindingIDs(c: Text, xs: seq<KubeBinding>): map<string, CanonicalID> { Index(xs, BindingKeyF(), RoleBindingIDF(c)) }
  function ClusterRoleBindingIDs(c: Text, xs: seq<KubeBinding>): map<string, CanonicalID> {
    Index(xs, BindingNameF(), ClusterRoleBindingIDF(c))
  }
  function ServiceIDs(c: Text, xs: seq<KubeService>): map<string, CanonicalID> { Index(xs, ServiceKeyF(), ServiceIDF(c)) }
  function PVCIDs(c: Text, xs: seq<KubePVC>): map<string, CanonicalID> { Index(xs, PVCKeyF(), PVCIDF(c)) }
  function PVIDs(c: Text, xs: seq<KubePV>): map<string, CanonicalID> { Index(xs, PVKeyF(), PVIDF(c)) }
  function StorageClassIDs(c: Text, xs: seq<KubeStorageClass>): map<string, CanonicalID> {
    Index(xs, StorageClassKeyF(), StorageClassIDF(c))
  }
  function ObservedDriverIDs(c: Text, xs: seq<KubeNamed>): map<string, CanonicalID> { Index(xs, DriverKeyF(), DriverIDF(c)) }
  function WebhookIDs(c: Text, xs: seq<KubeWebhookConfig>): map<string, CanonicalID> { Index(xs, WebhookKeyF(), WebhookIDF(c)) }

  function WorkloadKeyF(): KubeWorkload -> string { (x: KubeWorkload) => MetaKey(x.meta) }
  function PodKeyF(): KubePod -> string { (x: KubePod) => MetaKey(x.meta) }
  function NodeKeyF(): KubeNode -> string { (x: KubeNode) => x.meta.name }
  function NamedKeyF(): KubeNamed -> string { (x: KubeNamed) => MetaKey(x.meta) }
  function BindingKeyF(): KubeBinding -> string { (x: KubeBinding) => MetaKey(x.meta) }
  function BindingNameF(): KubeBinding -> string { (x: KubeBinding) => x.meta.name }
  function ServiceKeyF(): KubeService -> string { (x: KubeService) => MetaKey(x.meta) }
  function PVCKeyF(): KubePVC -> string { (x: KubePVC) => MetaKey(x.meta) }
  function PVKeyF(): KubePV -> string { (x: KubePV) => x.meta.name }
  function StorageClassKeyF(): KubeStorageClass -> string { (x: KubeStorageClass) => x.meta.name }
  function DriverKeyF(): KubeNamed -> string { (x: KubeNamed) => x.meta.name }
  function WebhookKeyF(): KubeWebhookConfig -> string { (x: KubeWebhookConfig) => x.meta.name }

  function WorkloadIDF(c: Text): KubeWorkload -> CanonicalID { (x: KubeWorkload) => WorkloadID(c, x) }
  function PodIDF(c: Text): KubePod -> CanonicalID { (x: KubePod) => PodID(c, x) }
  function NodeIDF(c: Text): KubeNode -> CanonicalID { (x: KubeNode) => NodeID(c, x) }
  function ConfigMapIDF(c: Text): KubeNamed -> CanonicalID { (x: KubeNamed) => ConfigMapID(c, x) }
  function SecretIDF(c: Text): KubeNamed -> CanonicalID { (x: KubeNamed) => SecretID(c, x) }
  function ServiceAccountIDF(c: Text): KubeNamed -> CanonicalID { (x: KubeNamed) => ServiceAccountID(c, x) }
  function RoleBindingIDF(c: Text): KubeBinding -> CanonicalID { (x: KubeBinding) => RoleBindingID(c, x) }
  function ClusterRoleBindingIDF(c: Text): KubeBinding -> CanonicalID { (x: KubeBinding) => ClusterRoleBindingID(c, x) }
  function ServiceIDF(c: Text): KubeService -> CanonicalID { (x: KubeService) => ServiceID(c, x) }
  function PVCIDF(c: Text): KubePVC -> CanonicalID { (x: KubePVC) => PVCID(c, x) }
  function PVIDF(c: Text): KubePV -> CanonicalID { (x: KubePV) => PVID(c, x) }
  function StorageClassIDF(c: Text): KubeStorageClass -> CanonicalID { (x: KubeStorageClass) => StorageClassID(c, x) }
  function DriverIDF(c: Text): KubeNamed -> CanonicalID { (x: KubeNamed) => CSIDriverID(c, x.meta.name, x.meta.uid) }
  function WebhookIDF(c: Text): KubeWebhookConfig -> CanonicalID { (x: KubeWebhookConfig) => WebhookID(c, x) }
}
