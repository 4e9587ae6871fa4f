/** What a snapshot says about each kind of link, in the objects' own fields. */
module SnapshotLinks {
  import opened Identity
  import opened Strings
  import opened Resources
  import opened Csi

  // ---- What Kubernetes guarantees of names ----

  /** Objects of one namespace and name share one identifier, and neither name holds a '/'. */
  ghost predicate Namespaced<T(!new)>(xs: seq<T>, meta: T -> Metadata, id: T -> CanonicalID) {
    && (forall x | x in xs :: '/' !in meta(x).namespace && '/' !in meta(x).name)
    && forall x, y | x in xs && y in xs && meta(x).namespace == meta(y).namespace && meta(x).name == meta(y).name :: id(x) == id(y)
  }

  /** The same of objects outside namespaces. */
  ghost predicate ClusterWide<T(!new)>(xs: seq<T>, meta: T -> Metadata, id: T -> CanonicalID) {
    forall x, y | x in xs && y in xs && meta(x).name == meta(y).name :: id(x) == id(y)
  }

  function PodMeta(): KubePod -> Metadata { (x: KubePod) => x.meta }
  function ServiceMeta(): KubeService -> Metadata { (x: KubeService) => x.meta }
  function NamedMeta(): KubeNamed -> Metadata { (x: KubeNamed) => x.meta }
  function BindingMeta(): KubeBinding -> Metadata { (x: KubeBinding) => x.meta }
  function PVCMeta(): KubePVC -> Metadata { (x: KubePVC) => x.meta }
  function PVMeta(): KubePV -> Metadata { (x: KubePV) => x.meta }
  function NodeMeta(): KubeNode -> Metadata { (x: KubeNode) => x.meta }
  function ClassMeta(): KubeStorageClass -> Metadata { (x: KubeStorageClass) => x.meta }

  ghost predicate PodNamesIdentify(c: Text, s: Snapshot) {
    && Namespaced(s.pods, PodMeta(), PodIDF(c)) && ClusterWide(s.nodes, NodeMeta(), NodeIDF(c))
    && Namespaced(s.configMaps, NamedMeta(), ConfigMapIDF(c)) && Namespaced(s.secrets, NamedMeta(), SecretIDF(c))
    && Namespaced(s.serviceAccounts, NamedMeta(), ServiceAccountIDF(c)) && Namespaced(s.pvcs, PVCMeta(), PVCIDF(c))
    && Namespaced(s.services, ServiceMeta(), ServiceIDF(c))
  }

  ghost predicate BindingNamesIdentify(c: Text, s: Snapshot) {
    && Namespaced(s.serviceAccounts, NamedMeta(), ServiceAccountIDF(c)) && Namespaced(s.roleBindings, BindingMeta(), RoleBindingIDF(c))
    && ClusterWide(s.clusterRoleBindings, BindingMeta(), ClusterRoleBindingIDF(c))
  }

  ghost predicate StorageNamesIdentify(c: Text, s: Snapshot) {
    && Namespaced(s.pvcs, PVCMeta(), PVCIDF(c)) && ClusterWide(s.pvs, PVMeta(), PVIDF(c))
    && ClusterWide(s.storageClasses, ClassMeta(), StorageClassIDF(c)) && ClusterWide(s.csiDrivers, NamedMeta(), DriverIDF(c))
  }

  // ---- Workloads ----

  /** The snapshot lists a workload of the name under the identifier. */
  ghost predicate ListsWorkload(c: Text, s: Snapshot, namespace: Text, name: Text, w: CanonicalID) {
    exists x | x in s.workloads :: x.meta.namespace == namespace && x.meta.name == name && WorkloadID(c, x) == w
  }

  // ---- Pods ----

  /** A pod of the identifier names the node in nodeName. */
  ghost predicate RunsOn(c: Text, s: Snapshot, p: CanonicalID, n: CanonicalID) {
    exists pod, node | pod in s.pods && node in s.nodes ::
      PodID(c, pod) == p && NodeID(c, node) == n && pod.nodeName == node.meta.name && pod.nodeName != ""
  }

  /** The names the list of references holds name the object in the pod's namespace. */
  ghost predicate RefersTo(pod: KubePod, refs: seq<Text>, meta: Metadata) {
    meta.namespace == pod.meta.namespace && meta.name in refs
  }

  ghost predicate ReadsConfigMap(c: Text, s: Snapshot, p: CanonicalID, x: CanonicalID) {
    exists pod, cm | pod in s.pods && cm in s.configMaps ::
      PodID(c, pod) == p && ConfigMapID(c, cm) == x && RefersTo(pod, pod.configMapRefs, cm.meta)
  }

  ghost predicate ReadsSecret(c: Text, s: Snapshot, p: CanonicalID, x: CanonicalID) {
    exists pod, secret | pod in s.pods && secret in s.secrets ::
      PodID(c, pod) == p && SecretID(c, secret) == x && RefersTo(pod, pod.secretRefs, secret.meta)
  }

  ghost predicate Mounts(c: Text, s: Snapshot, p: CanonicalID, v: CanonicalID) {
    exists pod, claim | pod in s.pods && claim in s.pvcs ::
      PodID(c, pod) == p && PVCID(c, claim) == v && RefersTo(pod, pod.pvcRefs, claim.meta)
  }

  ghost predicate RunsAs(c: Text, s: Snapshot, p: CanonicalID, a: CanonicalID) {
    exists pod, account | pod in s.pods && account in s.serviceAccounts ::
      PodID(c, pod) == p && ServiceAccountID(c, account) == a
      && account.meta.namespace == pod.meta.namespace && account.meta.name == pod.serviceAccount != ""
  }

  ghost predicate RunsImage(c: Text, s: Snapshot, p: CanonicalID, i: CanonicalID) {
    exists pod, image | pod in s.pods && image in pod.containerImages :: PodID(c, pod) == p && ImageID(c, image) == i
  }

  /** The selector is not empty, and the pod is in the service's namespace and carries every label it asks for; a missing label reads as "". */
  ghost predicate AsksFor(v: KubeService, pod: KubePod) {
    && pod.meta.namespace == v.meta.namespace && v.selector != map[]
    && forall key | key in v.selector ::
         if key in pod.meta.labels then pod.meta.labels[key] == v.selector[key] else v.selector[key] == ""
  }

  ghost predicate Selected(c: Text, s: Snapshot, v: CanonicalID, p: CanonicalID) {
    exists service, pod | service in s.services && pod in s.pods :: ServiceID(c, service) == v && PodID(c, pod) == p && AsksFor(service, pod)
  }

  // ---- Accounts and bindings ----

  /** The i-th of a list of names, trimmed; a missing one is empty. */
  function Trimmed(values: seq<Text>, i: nat): string {
    if i < |values| then TrimSpace(values[i]) else ""
  }

  /** Subject i of the binding is the service account: by the subject's own namespace, else by the default one, if any. */
  ghost predicate IsSubject(b: KubeBinding, i: nat, defaultNamespace: string, account: KubeNamed) {
    && i < |b.subjectKinds| && EqualFoldAscii(TrimSpace(b.subjectKinds[i]), "ServiceAccount")
    && account.meta.name == Trimmed(b.subjectNames, i) && account.meta.name != "" && account.meta.namespace != ""
    && account.meta.namespace == if Trimmed(b.subjectNamespaces, i) != "" then Trimmed(b.subjectNamespaces, i) else defaultNamespace
  }

  /** A RoleBinding's subject defaults to the binding's namespace, a ClusterRoleBinding's to none. */
  ghost predicate Binds(c: Text, s: Snapshot, a: CanonicalID, b: CanonicalID) {
    exists account | account in s.serviceAccounts :: ServiceAccountID(c, account) == a &&
      ((exists rb, i: nat | rb in s.roleBindings :: RoleBindingID(c, rb) == b && IsSubject(rb, i, rb.meta.namespace, account))
       || exists crb, i: nat | crb in s.clusterRoleBindings :: ClusterRoleBindingID(c, crb) == b && IsSubject(crb, i, "", account))
  }

  // ---- Storage ----

  ghost predicate BindsVolume(c: Text, s: Snapshot, a: CanonicalID, b: CanonicalID) {
    exists claim, pv | claim in s.pvcs && pv in s.pvs ::
      PVCID(c, claim) == a && PVID(c, pv) == b && claim.volumeName == pv.meta.name != ""
  }

  /** The claim's class is its own, or that of the first volume of the name it asks for. */
  ghost predicate HasClass(s: Snapshot, claim: KubePVC, name: Text) {
    if claim.storageClassName != "" then claim.storageClassName == name
    else claim.volumeName != "" && exists i | 0 <= i < |s.pvs| ::
           s.pvs[i].meta.name == claim.volumeName && s.pvs[i].storageClassName == name && forall j | 0 <= j < i :: s.pvs[j].meta.name != claim.volumeName
  }

  ghost predicate InClass(c: Text, s: Snapshot, x: CanonicalID, cl: CanonicalID) {
    exists sc | sc in s.storageClasses :: StorageClassID(c, sc) == cl && sc.meta.name != "" &&
      ((exists claim | claim in s.pvcs :: PVCID(c, claim) == x && HasClass(s, claim, sc.meta.name))
       || exists pv | pv in s.pvs :: PVID(c, pv) == x && pv.storageClassName == sc.meta.name)
  }

  ghost predicate RulesName(rules: seq<CSIRule>, driver: string) {
    exists rule | rule in rules :: rule.driver == driver
  }

  /** A name made for a CSI driver. */
  ghost predicate SoundsLikeCSI(name: string) {
    && !("kubernetes.io/" <= name)
    && ("csi." <= name || HasSuffix(name, ".csi") || Contains(name, ".csi.") || Contains(name, "-csi.") || Contains(name, ".csi-"))
  }

  /** The driver of the name is a listed one, or else one that a class is provisioned by and whose name is known or sounds like CSI. */
  ghost predicate IsDriver(c: Text, rules: seq<CSIRule>, s: Snapshot, name: Text, d: CanonicalID) {
    if exists x | x in s.csiDrivers :: x.meta.name == name then
      exists x | x in s.csiDrivers :: x.meta.name == name && CSIDriverID(c, name, x.meta.uid) == d
    else
      && name != "" && (exists sc | sc in s.storageClasses :: sc.provisioner == name)
      && (RulesName(rules, name) || SoundsLikeCSI(name)) && CSIDriverID(c, name, "") == d
  }

  ghost predicate Provisioned(c: Text, rules: seq<CSIRule>, s: Snapshot, cl: CanonicalID, d: CanonicalID) {
    exists sc | sc in s.storageClasses ::
      StorageClassID(c, sc) == cl && sc.provisioner != "" && IsDriver(c, rules, s, sc.provisioner, d)
  }

  /** The first rule for the driver. */
  ghost predicate FirstRule(rules: seq<CSIRule>, driver: string, rule: CSIRule) {
    exists i | 0 <= i < |rules| :: rules[i] == rule && rule.driver == driver && forall j | 0 <= j < i :: rules[j].driver != driver
  }

  /** The last rule for the driver. */
  ghost predicate LastRule(rules: seq<CSIRule>, driver: string, rule: CSIRule) {
    exists i | 0 <= i < |rules| :: rules[i] == rule && rule.driver == driver && forall j | i < j < |rules| :: rules[j].driver != driver
  }

  ghost predicate NamedLike(name: string, prefixes: seq<string>) {
    exists prefix | prefix in prefixes :: prefix <= name
  }

  ghost predicate InRuleNamespace(rule: CSIRule, pod: KubePod) {
    rule.componentNamespace in {"", "*"} || rule.componentNamespace == pod.meta.namespace
  }

  /** The rule names the pod as a controller. */
  ghost predicate ControllerPod(rule: CSIRule, pod: KubePod) {
    InRuleNamespace(rule, pod) && NamedLike(pod.meta.name, rule.controllerPodPrefixes)
  }

  /** The rule names the pod as a node agent, and not as a controller. */
  ghost predicate AgentPod(rule: CSIRule, pod: KubePod) {
    InRuleNamespace(rule, pod) && NamedLike(pod.meta.name, rule.nodeAgentPodPrefixes) && !NamedLike(pod.meta.name, rule.controllerPodPrefixes)
  }

  ghost predicate ImplementsAsController(c: Text, rules: seq<CSIRule>, s: Snapshot, d: CanonicalID, p: CanonicalID) {
    exists name: Text, rule, pod | pod in s.pods ::
      IsDriver(c, rules, s, name, d) && FirstRule(rules, name, rule) && PodID(c, pod) == p && ControllerPod(rule, pod)
  }

  ghost predicate ImplementsAsAgent(c: Text, rules: seq<CSIRule>, s: Snapshot, d: CanonicalID, p: CanonicalID) {
    exists name: Text, rule, pod | pod in s.pods ::
      IsDriver(c, rules, s, name, d) && FirstRule(rules, name, rule) && PodID(c, pod) == p && AgentPod(rule, pod)
  }

  ghost predicate DriverOf(pv: KubePV, driver: string) {
    "driver" in pv.csi && pv.csi["driver"] == driver != ""
  }

  ghost predicate ControlsVolume(c: Text, rules: seq<CSIRule>, s: Snapshot, v: CanonicalID, p: CanonicalID) {
    exists pv, pod, driver, rule | pv in s.pvs && pod in s.pods ::
      PVID(c, pv) == v && PodID(c, pod) == p && DriverOf(pv, driver) && LastRule(rules, driver, rule) && ControllerPod(rule, pod)
  }

  /** The node is the volume's affinity, or that of a pod that mounts a claim bound to the volume. */
  ghost predicate VolumeNode(s: Snapshot, pv: KubePV, nodeName: string) {
    nodeName != "" &&
    (("nodeAffinity" in pv.csi && nodeName == TrimSpace(pv.csi["nodeAffinity"]))
     || exists claim, pod | claim in s.pvcs && pod in s.pods ::
          claim.volumeName == pv.meta.name && RefersTo(pod, pod.pvcRefs, claim.meta) && TrimSpace(pod.nodeName) == nodeName)
  }

  ghost predicate ServesVolume(c: Text, rules: seq<CSIRule>, s: Snapshot, v: CanonicalID, p: CanonicalID) {
    exists pv, pod, driver, rule | pv in s.pvs && pod in s.pods ::
      PVID(c, pv) == v && PodID(c, pod) == p && DriverOf(pv, driver) && LastRule(rules, driver, rule) && AgentPod(rule, pod)
      && VolumeNode(s, pv, pod.nodeName)
  }

  // ---- Events ----

  /** An object events may be about: a workload, pod, node, service, account, claim or volume. */
  ghost predicate IsObject(c: Text, s: Snapshot, kind: string, uid: string, id: CanonicalID) {
    || (exists w | w in s.workloads :: w.controllerKind == kind && w.meta.uid == uid && WorkloadID(c, w) == id)
    || (kind == "Pod" && exists p | p in s.pods :: p.meta.uid == uid && PodID(c, p) == id)
    || (kind == "Node" && exists n | n in s.nodes :: n.meta.uid == uid && NodeID(c, n) == id)
    || (kind == "Service" && exists v | v in s.services :: v.meta.uid == uid && ServiceID(c, v) == id)
    || (kind == "ServiceAccount" && exists a | a in s.serviceAccounts :: a.meta.uid == uid && ServiceAccountID(c, a) == id)
    || (kind == "PersistentVolumeClaim" && exists p | p in s.pvcs :: p.meta.uid == uid && PVCID(c, p) == id)
    || (kind == "PersistentVolume" && exists p | p in s.pvs :: p.meta.uid == uid && PVID(c, p) == id)
  }

  /** A kind and a UID belong to one identifier, and no kind holds a '/'. */
  ghost predicate UIDsIdentify(c: Text, s: Snapshot) {
    && (forall kind, uid, i, j | IsObject(c, s, kind, uid, i) && IsObject(c, s, kind, uid, j) :: i == j)
    && (forall w | w in s.workloads :: '/' !in w.controllerKind) && forall e | e in s.events :: '/' !in e.involvedKind
  }

  ghost predicate Reports(c: Text, s: Snapshot, e: CanonicalID, t: CanonicalID) {
    exists event | event in s.events :: EventID(c, event) == e && IsObject(c, s, event.involvedKind, event.involvedUID, t)
  }

  /** A failed creation or admission is reported of the workload in its namespace. */
  ghost predicate Blocked(c: Text, s: Snapshot, w: CanonicalID) {
    exists event, workload | event in s.events && workload in s.workloads ::
      WorkloadID(c, workload) == w && event.reason in {"FailedCreate", "FailedAdmission"}
      && event.meta.namespace == workload.meta.namespace && event.involvedName == workload.meta.name
  }
}
