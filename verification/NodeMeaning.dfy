/** Which objects the nodes of a graph stand for, after a rebuild, and which nodes an update removes. */
module NodeMeaning {
  import opened Identity
  import opened GraphModel
  import opened Resources
  import opened Csi
  import opened Builder
  import opened RebuildSections
  import opened Changes
  import opened KernelLoops
  import opened SnapshotLinks
  import opened PodLinks
  import opened IdentityLinks
  import opened StorageLinks
  import SR = StorageRefinement
  import Storage = StorageReconciler
  import Identities = IdentityReconciler
  import Pods = PodReconciler
  import Services = ServiceReconciler
  import Events = EventReconciler
  import Workloads = WorkloadReconciler

  // ---- What a node stands for ----

  /** The node carries the name of the object, and its namespace if it has one. */
  ghost predicate Named(n: Node, namespace: Text, name: Text, id: CanonicalID) {
    n.id == id && n.name == name && n.namespace == namespace
  }

  ghost predicate StandsForPod(c: Text, s: Snapshot, n: Node) {
    exists p | p in s.pods ::
      && Named(n, p.meta.namespace, p.meta.name, PodID(c, p)) && n.attributes.Keys == {"nodeName", "phase", "reason"}
      && n.attributes["nodeName"] == Str(p.nodeName) && n.attributes["phase"] == Str(p.phase) && n.attributes["reason"] == Str(p.reason)
  }

  /** The class is provisioned by a driver that is not listed, and that a rule names or that sounds like CSI. */
  ghost predicate MakesADriver(rules: seq<CSIRule>, s: Snapshot, sc: KubeStorageClass) {
    sc.provisioner != "" && (RulesName(rules, sc.provisioner) || SoundsLikeCSI(sc.provisioner)) && forall d | d in s.csiDrivers :: d.meta.name != sc.provisioner
  }

  /** Some listed object of the node's kind has its identifier, name and namespace. */
  ghost predicate Stands(c: Text, rules: seq<CSIRule>, s: Snapshot, n: Node) {
    match n.kind
    case Workload => exists w | w in s.workloads :: Named(n, w.meta.namespace, w.meta.name, WorkloadID(c, w)) && n.sourceKind == w.controllerKind
    case Pod => StandsForPod(c, s, n)
    case Image => exists p, image | p in s.pods && image in p.containerImages :: Named(n, "", image, ImageID(c, image))
    case NodeKindNode => exists x | x in s.nodes :: Named(n, "", x.meta.name, NodeID(c, x))
    case Service => exists v | v in s.services :: Named(n, v.meta.namespace, v.meta.name, ServiceID(c, v))
    case ConfigMap => exists x | x in s.configMaps :: Named(n, x.meta.namespace, x.meta.name, ConfigMapID(c, x))
    case Secret => exists x | x in s.secrets :: Named(n, x.meta.namespace, x.meta.name, SecretID(c, x))
    case ServiceAccount => exists x | x in s.serviceAccounts :: Named(n, x.meta.namespace, x.meta.name, ServiceAccountID(c, x))
    case RoleBinding => exists b | b in s.roleBindings :: Named(n, b.meta.namespace, b.meta.name, RoleBindingID(c, b))
    case ClusterRoleBinding => exists b | b in s.clusterRoleBindings :: Named(n, "", b.meta.name, ClusterRoleBindingID(c, b))
    case PVC => exists p | p in s.pvcs :: Named(n, p.meta.namespace, p.meta.name, PVCID(c, p))
    case PV => exists p | p in s.pvs :: Named(n, "", p.meta.name, PVID(c, p))
    case StorageClass => exists x | x in s.storageClasses :: Named(n, "", x.meta.name, StorageClassID(c, x))
    case CSIDriver =>
      || (exists d | d in s.csiDrivers :: Named(n, "", d.meta.name, CSIDriverID(c, d.meta.name, d.meta.uid)))
      || exists sc | sc in s.storageClasses && MakesADriver(rules, s, sc) :: Named(n, "", sc.provisioner, CSIDriverID(c, sc.provisioner, ""))
    case WebhookConfig => exists w | w in s.webhookConfigs :: Named(n, "", w.meta.name, WebhookID(c, w))
    case Event => exists e | e in s.events :: Named(n, e.meta.namespace, e.meta.name, EventID(c, e))
    case _ => true
  }

  lemma {:induction false} ImagesStand(c: Text, images: seq<Text>)
    ensures forall n | n in ImageNodes(c, images) :: n.kind == Image && exists image | image in images :: Named(n, "", image, ImageID(c, image))
    ensures forall image | image in images :: exists n | n in ImageNodes(c, images) :: n.id == ImageID(c, image)
  {
    hide ImageID;
    if images != [] {
      var init, last := images[..|images| - 1], images[|images| - 1];
      ImagesStand(c, init);
      assert images == init + [last];
      var n := ImageNode(c, last, |images| - 1);
      assert n in ImageNodes(c, images);
    }
  }

  lemma WorkingNodesStand(c: Text, rules: seq<CSIRule>, s: Snapshot)
    ensures forall n | n in Flat(s.workloads, WorkloadNodeF(c)) :: Stands(c, rules, s, n)
    ensures forall n | n in Flat(s.nodes, KubeNodeF(c)) :: Stands(c, rules, s, n)
    ensures forall n | n in Flat(s.services, ServiceNodeF(c)) :: Stands(c, rules, s, n)
    ensures forall n | n in Flat(s.configMaps, ConfigMapNodeF(c)) :: Stands(c, rules, s, n)
    ensures forall n | n in Flat(s.secrets, SecretNodeF(c)) :: Stands(c, rules, s, n)
  {
    hide Flat, WorkloadID, NodeID, ServiceID, ConfigMapID, SecretID;
    FlatMembers(s.workloads, WorkloadNodeF(c));
    FlatMembers(s.nodes, KubeNodeF(c));
    FlatMembers(s.services, ServiceNodeF(c));
    FlatMembers(s.configMaps, ConfigMapNodeF(c));
    FlatMembers(s.secrets, SecretNodeF(c));
  }

  lemma PodNodesStand(c: Text, rules: seq<CSIRule>, s: Snapshot)
    ensures forall n | n in Flat(s.pods, PodAndImagesF(c)) :: Stands(c, rules, s, n)
  {
    FlatMembers(s.pods, PodAndImagesF(c));
    hide Flat, Stands, PodNode, ImageNodes;
    forall n | n in Flat(s.pods, PodAndImagesF(c))
      ensures Stands(c, rules, s, n)
    {
      var p :| p in s.pods && n in PodAndImagesF(c)(p);
      if n == PodNode(c, p) {
        PodNodeStands(c, rules, s, p);
      } else {
        assert n in ImageNodes(c, p.containerImages);
        ImageNodeStands(c, rules, s, p, n);
      }
    }
  }

  lemma PodNodeStands(c: Text, rules: seq<CSIRule>, s: Snapshot, p: KubePod)
    requires p in s.pods
    ensures Stands(c, rules, s, PodNode(c, p))
  {
    hide PodID;
  }

  lemma ImageNodeStands(c: Text, rules: seq<CSIRule>, s: Snapshot, p: KubePod, n: Node)
    requires p in s.pods && n in ImageNodes(c, p.containerImages)
    ensures Stands(c, rules, s, n)
  {
    ImagesStand(c, p.containerImages);
    hide ImageID, ImageNodes;
  }

  lemma IdentityNodesStand(c: Text, rules: seq<CSIRule>, s: Snapshot)
    ensures forall n | n in IdentityNodes(c, s) :: Stands(c, rules, s, n)
  {
    hide Flat, ServiceAccountID, RoleBindingID, ClusterRoleBindingID;
    FlatMembers(s.serviceAccounts, ServiceAccountNodeF(c));
    FlatMembers(s.roleBindings, RoleBindingNodeF(c));
    FlatMembers(s.clusterRoleBindings, ClusterRoleBindingNodeF(c));
  }

  lemma StorageNodesStand(c: Text, rules: seq<CSIRule>, s: Snapshot)
    ensures forall n | n in ObservedStorageNodes(c, s) :: Stands(c, rules, s, n)
    ensures forall n | n in SyntheticNodes(c, rules, ObservedDriverIDs(c, s.csiDrivers), s.storageClasses) :: Stands(c, rules, s, n)
  {
    SR.BuildSyntheticFromReconciler(c, rules, s.csiDrivers, s.storageClasses);
    forall sc | sc in s.storageClasses { ProvisionersAre(sc.provisioner, rules); }
    hide Flat, PVCID, PVID, StorageClassID, CSIDriverID, SyntheticNodes, IsCSIProvisioner, RulesName, SoundsLikeCSI;
    FlatMembers(s.pvcs, PVCNodeF(c));
    FlatMembers(s.pvs, PVNodeF(c));
    FlatMembers(s.storageClasses, StorageClassNodeF(c));
    FlatMembers(s.csiDrivers, CSIDriverNodeF(c));
    FlatMembers(s.storageClasses, Storage.SyntheticF(c, rules, s.csiDrivers));
  }

  lemma OtherNodesStand(c: Text, rules: seq<CSIRule>, s: Snapshot)
    ensures forall n | n in Flat(s.webhookConfigs, WebhookNodeF(c)) :: Stands(c, rules, s, n)
    ensures forall n | n in Flat(s.events, EventNodeF(c)) :: Stands(c, rules, s, n)
  {
    hide Flat, WebhookID, EventID;
    FlatMembers(s.webhookConfigs, WebhookNodeF(c));
    FlatMembers(s.events, EventNodeF(c));
  }

  /** Every node of a rebuild, but for those of Helm inference, stands for a listed object of its kind. */
  lemma RebuiltNodesStand(c: Text, rules: seq<CSIRule>, x: Inferred, s: Snapshot, order: seq<string>, evidence: seq<Edge>, id: CanonicalID)
    requires InferredShape(x) && id in Rebuilt(c, rules, x, s, order, evidence).nodes
    ensures var n := Rebuilt(c, rules, x, s, order, evidence).nodes[id]; n.id == id && Stands(c, rules, s, n)
  {
    var ns := BuildNodes(c, rules, x, s);
    ToNodesMembers(ns);
    SR.RebuiltNodesOf(c, rules, x, s, order, evidence);
    hide Rebuilt, ToNodes;
    WorkingNodesStand(c, rules, s);
    PodNodesStand(c, rules, s);
    IdentityNodesStand(c, rules, s);
    StorageNodesStand(c, rules, s);
    OtherNodesStand(c, rules, s);
    HelmNodesStand(c, rules, x, s);
    hide Stands, Flat, IdentityNodes, ObservedStorageNodes, SyntheticNodes, InferredShape;
    assert forall n | n in NodesBeforeStorage(c, s) :: Stands(c, rules, s, n);
    hide NodesBeforeStorage;
    assert forall n | n in ns :: Stands(c, rules, s, n);
  }

  lemma HelmNodesStand(c: Text, rules: seq<CSIRule>, x: Inferred, s: Snapshot)
    requires InferredShape(x)
    ensures forall n | n in x.helmNodes :: Stands(c, rules, s, n)
  {
  }

  // ---- Every listed object has its node ----

  /** An object the snapshot lists, or a driver that a class makes, has the identifier. */
  ghost predicate IsListed(c: Text, rules: seq<CSIRule>, s: Snapshot, id: CanonicalID) {
    || (exists w | w in s.workloads :: WorkloadID(c, w) == id) || (exists p | p in s.pods :: PodID(c, p) == id)
    || (exists p, image | p in s.pods && image in p.containerImages :: ImageID(c, image) == id)
    || (exists x | x in s.nodes :: NodeID(c, x) == id) || (exists v | v in s.services :: ServiceID(c, v) == id)
    || (exists x | x in s.configMaps :: ConfigMapID(c, x) == id) || (exists x | x in s.secrets :: SecretID(c, x) == id)
    || (exists x | x in s.serviceAccounts :: ServiceAccountID(c, x) == id) || (exists b | b in s.roleBindings :: RoleBindingID(c, b) == id)
    || (exists b | b in s.clusterRoleBindings :: ClusterRoleBindingID(c, b) == id) || (exists p | p in s.pvcs :: PVCID(c, p) == id)
    || (exists p | p in s.pvs :: PVID(c, p) == id) || (exists x | x in s.storageClasses :: StorageClassID(c, x) == id)
    || (exists d | d in s.csiDrivers :: CSIDriverID(c, d.meta.name, d.meta.uid) == id)
    || (exists sc | sc in s.storageClasses && MakesADriver(rules, s, sc) :: CSIDriverID(c, sc.provisioner, "") == id)
    || (exists w | w in s.webhookConfigs :: WebhookID(c, w) == id) || (exists e | e in s.events :: EventID(c, e) == id)
  }

  ghost predicate Holds(ns: seq<Node>, id: CanonicalID) { exists n | n in ns :: n.id == id }

  lemma OneEach<T(!new)>(xs: seq<T>, f: T -> seq<Node>, id: T -> CanonicalID)
    requires forall x | x in xs :: |f(x)| > 0 && f(x)[0].id == id(x)
    ensures forall x | x in xs :: Holds(Flat(xs, f), id(x))
  {
    FlatMembers(xs, f);
    hide Flat;
    forall x | x in xs
      ensures Holds(Flat(xs, f), id(x))
    {
      assert f(x)[0] in f(x);
      assert f(x)[0] in Flat(xs, f);
    }
  }

  lemma WorkingHold(c: Text, s: Snapshot)
    ensures forall x | x in s.workloads :: Holds(Flat(s.workloads, WorkloadNodeF(c)), WorkloadIDF(c)(x))
    ensures forall x | x in s.nodes :: Holds(Flat(s.nodes, KubeNodeF(c)), NodeIDF(c)(x))
    ensures forall x | x in s.services :: Holds(Flat(s.services, ServiceNodeF(c)), ServiceIDF(c)(x))
    ensures forall x | x in s.configMaps :: Holds(Flat(s.configMaps, ConfigMapNodeF(c)), ConfigMapIDF(c)(x))
    ensures forall x | x in s.secrets :: Holds(Flat(s.secrets, SecretNodeF(c)), SecretIDF(c)(x))
  {
    hide Flat, Holds, WorkloadID, NodeID, ServiceID, ConfigMapID, SecretID;
    OneEach(s.workloads, WorkloadNodeF(c), WorkloadIDF(c));
    OneEach(s.nodes, KubeNodeF(c), NodeIDF(c));
    OneEach(s.services, ServiceNodeF(c), ServiceIDF(c));
    OneEach(s.configMaps, ConfigMapNodeF(c), ConfigMapIDF(c));
    OneEach(s.secrets, SecretNodeF(c), SecretIDF(c));
  }

  lemma PodsHold(c: Text, s: Snapshot)
    ensures forall p | p in s.pods :: Holds(Flat(s.pods, PodAndImagesF(c)), PodID(c, p))
    ensures forall p, image | p in s.pods && image in p.containerImages :: Holds(Flat(s.pods, PodAndImagesF(c)), ImageID(c, image))
  {
    FlatMembers(s.pods, PodAndImagesF(c));
    hide Flat, PodID, ImageID, PodAndImagesF, Holds;
    forall p | p in s.pods
      ensures Holds(Flat(s.pods, PodAndImagesF(c)), PodID(c, p))
      ensures forall image | image in p.containerImages :: Holds(Flat(s.pods, PodAndImagesF(c)), ImageID(c, image))
    {
      PodHoldsItself(c, p);
      forall n | n in PodAndImagesF(c)(p)
        ensures Holds(Flat(s.pods, PodAndImagesF(c)), n.id)
      {
        InList(Flat(s.pods, PodAndImagesF(c)), n);
      }
    }
  }

  lemma InList(ns: seq<Node>, n: Node)
    requires n in ns
    ensures Holds(ns, n.id)
  {
  }

  lemma PodHoldsItself(c: Text, p: KubePod)
    ensures exists n | n in PodAndImagesF(c)(p) :: n.id == PodID(c, p)
    ensures forall image | image in p.containerImages :: exists n | n in PodAndImagesF(c)(p) :: n.id == ImageID(c, image)
  {
    ImagesStand(c, p.containerImages);
    hide PodID, ImageID, ImageNodes;
    assert PodAndImagesF(c)(p)[0] in PodAndImagesF(c)(p);
    forall image | image in p.containerImages
      ensures exists n | n in PodAndImagesF(c)(p) :: n.id == ImageID(c, image)
    {
      var n :| n in ImageNodes(c, p.containerImages) && n.id == ImageID(c, image);
      assert n in PodAndImagesF(c)(p);
    }
  }

  lemma IdentitiesHold(c: Text, s: Snapshot)
    ensures forall x | x in s.serviceAccounts :: Holds(IdentityNodes(c, s), ServiceAccountIDF(c)(x))
    ensures forall x | x in s.roleBindings :: Holds(IdentityNodes(c, s), RoleBindingIDF(c)(x))
    ensures forall x | x in s.clusterRoleBindings :: Holds(IdentityNodes(c, s), ClusterRoleBindingIDF(c)(x))
  {
    hide Flat, ServiceAccountID, RoleBindingID, ClusterRoleBindingID;
    OneEach(s.serviceAccounts, ServiceAccountNodeF(c), ServiceAccountIDF(c));
    OneEach(s.roleBindings, RoleBindingNodeF(c), RoleBindingIDF(c));
    OneEach(s.clusterRoleBindings, ClusterRoleBindingNodeF(c), ClusterRoleBindingIDF(c));
    hide ServiceAccountNodeF, RoleBindingNodeF, ClusterRoleBindingNodeF, ServiceAccountIDF, RoleBindingIDF, ClusterRoleBindingIDF;
  }

  lemma StorageHolds(c: Text, s: Snapshot)
    ensures forall x | x in s.pvcs :: Holds(ObservedStorageNodes(c, s), PVCIDF(c)(x))
    ensures forall x | x in s.pvs :: Holds(ObservedStorageNodes(c, s), PVIDF(c)(x))
    ensures forall x | x in s.storageClasses :: Holds(ObservedStorageNodes(c, s), StorageClassIDF(c)(x))
    ensures forall x | x in s.csiDrivers :: Holds(ObservedStorageNodes(c, s), DriverIDF(c)(x))
  {
    hide Flat, PVCID, PVID, StorageClassID, CSIDriverID;
    OneEach(s.pvcs, PVCNodeF(c), PVCIDF(c));
    OneEach(s.pvs, PVNodeF(c), PVIDF(c));
    OneEach(s.storageClasses, StorageClassNodeF(c), StorageClassIDF(c));
    OneEach(s.csiDrivers, CSIDriverNodeF(c), DriverIDF(c));
    hide PVCNodeF, PVNodeF, StorageClassNodeF, CSIDriverNodeF, PVCIDF, PVIDF, StorageClassIDF, DriverIDF;
  }

  lemma DriversHold(c: Text, rules: seq<CSIRule>, s: Snapshot)
    ensures forall sc | sc in s.storageClasses && MakesADriver(rules, s, sc) ::
      Holds(SyntheticNodes(c, rules, ObservedDriverIDs(c, s.csiDrivers), s.storageClasses), CSIDriverID(c, sc.provisioner, ""))
  {
    SR.BuildSyntheticFromReconciler(c, rules, s.csiDrivers, s.storageClasses);
    FlatMembers(s.storageClasses, Storage.SyntheticF(c, rules, s.csiDrivers));
    hide Flat, CSIDriverID, SyntheticNodes, IsCSIProvisioner, RulesName, SoundsLikeCSI;
    forall sc | sc in s.storageClasses && MakesADriver(rules, s, sc)
      ensures Holds(SyntheticNodes(c, rules, ObservedDriverIDs(c, s.csiDrivers), s.storageClasses), CSIDriverID(c, sc.provisioner, ""))
    {
      ProvisionersAre(sc.provisioner, rules);
      var n := SyntheticCSIDriverNode(c, sc.provisioner);
      assert n in Storage.SyntheticF(c, rules, s.csiDrivers)(sc);
      assert n in Flat(s.storageClasses, Storage.SyntheticF(c, rules, s.csiDrivers));
    }
  }

  lemma OthersHold(c: Text, s: Snapshot)
    ensures forall x | x in s.webhookConfigs :: Holds(Flat(s.webhookConfigs, WebhookNodeF(c)), WebhookIDF(c)(x))
    ensures forall e | e in s.events :: Holds(Flat(s.events, EventNodeF(c)), EventID(c, e))
  {
    hide Flat, WebhookID, EventID, Holds;
    OneEach(s.webhookConfigs, WebhookNodeF(c), WebhookIDF(c));
    OneEach(s.events, EventNodeF(c), (e: KubeEvent) => EventID(c, e));
  }

  lemma PartHolds(part: seq<Node>, ns: seq<Node>, id: CanonicalID)
    requires Holds(part, id) && forall n | n in part :: n in ns
    ensures Holds(ns, id)
  {
  }

  lemma PartsOfBuild(c: Text, rules: seq<CSIRule>, x: Inferred, s: Snapshot, id: CanonicalID)
    requires
      || Holds(Flat(s.workloads, WorkloadNodeF(c)), id) || Holds(Flat(s.pods, PodAndImagesF(c)), id) || Holds(Flat(s.nodes, KubeNodeF(c)), id)
      || Holds(Flat(s.services, ServiceNodeF(c)), id) || Holds(Flat(s.configMaps, ConfigMapNodeF(c)), id) || Holds(Flat(s.secrets, SecretNodeF(c)), id)
      || Holds(IdentityNodes(c, s), id) || Holds(ObservedStorageNodes(c, s), id) || Holds(Flat(s.webhookConfigs, WebhookNodeF(c)), id)
      || Holds(Flat(s.events, EventNodeF(c)), id)
      || Holds(SyntheticNodes(c, rules, ObservedDriverIDs(c, s.csiDrivers), s.storageClasses), id)
    ensures Holds(BuildNodes(c, rules, x, s), id)
  {
    hide Flat, IdentityNodes, ObservedStorageNodes, SyntheticNodes, ObservedDriverIDs;
    var n: Node :| n.id == id &&
      (n in Flat(s.workloads, WorkloadNodeF(c)) || n in Flat(s.pods, PodAndImagesF(c)) || n in Flat(s.nodes, KubeNodeF(c))
       || n in Flat(s.services, ServiceNodeF(c)) || n in Flat(s.configMaps, ConfigMapNodeF(c)) || n in Flat(s.secrets, SecretNodeF(c))
       || n in IdentityNodes(c, s) || n in ObservedStorageNodes(c, s) || n in Flat(s.webhookConfigs, WebhookNodeF(c))
       || n in Flat(s.events, EventNodeF(c)) || n in SyntheticNodes(c, rules, ObservedDriverIDs(c, s.csiDrivers), s.storageClasses));
    assert n in BuildNodes(c, rules, x, s);
  }

  /** And every listed object has a node. */
  lemma RebuiltStoresTheListed(c: Text, rules: seq<CSIRule>, x: Inferred, s: Snapshot, order: seq<string>, evidence: seq<Edge>, id: CanonicalID)
    requires IsListed(c, rules, s, id)
    ensures id in Rebuilt(c, rules, x, s, order, evidence).nodes
  {
    SR.RebuiltNodesOf(c, rules, x, s, order, evidence);
    ToNodesMembers(BuildNodes(c, rules, x, s));
    hide Rebuilt, ToNodes, BuildNodes;
    ListedHasANode(c, rules, s, id);
    hide IsListed;
    PartsOfBuild(c, rules, x, s, id);
  }

  lemma ListedHasANode(c: Text, rules: seq<CSIRule>, s: Snapshot, id: CanonicalID)
    requires IsListed(c, rules, s, id)
    ensures
      || Holds(Flat(s.workloads, WorkloadNodeF(c)), id) || Holds(Flat(s.pods, PodAndImagesF(c)), id) || Holds(Flat(s.nodes, KubeNodeF(c)), id)
      || Holds(Flat(s.services, ServiceNodeF(c)), id) || Holds(Flat(s.configMaps, ConfigMapNodeF(c)), id) || Holds(Flat(s.secrets, SecretNodeF(c)), id)
      || Holds(IdentityNodes(c, s), id) || Holds(ObservedStorageNodes(c, s), id) || Holds(Flat(s.webhookConfigs, WebhookNodeF(c)), id)
      || Holds(Flat(s.events, EventNodeF(c)), id)
      || Holds(SyntheticNodes(c, rules, ObservedDriverIDs(c, s.csiDrivers), s.storageClasses), id)
  {
    hide Flat, IdentityNodes, ObservedStorageNodes, SyntheticNodes, ObservedDriverIDs, Holds, MakesADriver, WorkloadID, PodID, ImageID, NodeID, ServiceID,
         ConfigMapID, SecretID, ServiceAccountID, RoleBindingID, ClusterRoleBindingID, PVCID, PVID, StorageClassID, CSIDriverID, WebhookID, EventID;
    WorkingHold(c, s);
    PodsHold(c, s);
    IdentitiesHold(c, s);
    StorageHolds(c, s);
    DriversHold(c, rules, s);
    OthersHold(c, s);
  }

  // ---- Which nodes an update removes ----

  /** A storage update removes exactly the claims, volumes, classes and drivers that the snapshot does not list. */
  lemma StorageUpdateRemoves(g: Graph, c: Text, rules: seq<CSIRule>, s: Snapshot, order: seq<string>, id: CanonicalID)
    requires g.Valid() && StorageNamesIdentify(c, s) && id in g.nodes
    ensures id in Storage.Reconciled(g, c, rules, s, order).nodes <==>
      (g.nodes[id].kind in {PVC, PV, StorageClass, CSIDriver} ==> IsCurrentStorage(c, rules, s, id))
  {
    CurrentStorageIs(c, rules, s, id);
    SR.KeptNodesAreUpserted(c, rules, s);
    UpsertedStorageIsCurrent(c, rules, s);
    hide Storage.StorageNodes, StorageMapsOf, Storage.CurrentIDs, ToNodes, IsCurrentStorage, Storage.RebuiltStorageEdges, Storage.KernelDriverNames, ToEdges,
         StorageNamesIdentify;
    var m := StorageMapsOf(c, rules, s);
    assert Doomed(g.WithoutEdges(Storage.StorageKey()), Storage.StaleStorage(Storage.CurrentIDs(m))) ==
      set u | u in g.nodes && g.nodes[u].kind in {PVC, PV, StorageClass, CSIDriver} && u !in Storage.CurrentIDs(m);
  }

  ghost predicate IsCurrentStorage(c: Text, rules: seq<CSIRule>, s: Snapshot, id: CanonicalID) {
    || (exists p | p in s.pvcs :: PVCID(c, p) == id) || (exists p | p in s.pvs :: PVID(c, p) == id)
    || (exists x | x in s.storageClasses :: StorageClassID(c, x) == id) || exists name: Text :: IsDriver(c, rules, s, name, id)
  }

  lemma StandingIsCurrent(c: Text, rules: seq<CSIRule>, s: Snapshot, n: Node)
    requires Stands(c, rules, s, n) && n.kind in {PVC, PV, StorageClass, CSIDriver}
    ensures IsCurrentStorage(c, rules, s, n.id)
  {
    hide PVCID, PVID, StorageClassID, CSIDriverID, RulesName, SoundsLikeCSI;
    if n.kind == CSIDriver {
      if d :| d in s.csiDrivers && Named(n, "", d.meta.name, CSIDriverID(c, d.meta.name, d.meta.uid)) {
        assert IsDriver(c, rules, s, d.meta.name, n.id);
      } else {
        var sc :| sc in s.storageClasses && MakesADriver(rules, s, sc) && Named(n, "", sc.provisioner, CSIDriverID(c, sc.provisioner, ""));
        assert IsDriver(c, rules, s, sc.provisioner, n.id);
      }
    }
  }

  lemma UpsertedStorageIsCurrent(c: Text, rules: seq<CSIRule>, s: Snapshot)
    ensures forall id | id in ToNodes(Storage.StorageNodes(c, rules, s)) :: IsCurrentStorage(c, rules, s, id)
  {
    ToNodesMembers(Storage.StorageNodes(c, rules, s));
    StorageNodesStand(c, rules, s);
    SR.BuildSyntheticFromReconciler(c, rules, s.csiDrivers, s.storageClasses);
    SR.StorageNodesAreNamed(c, rules, s);
    hide ToNodes, Flat, Stands, IsCurrentStorage, SyntheticNodes, ObservedStorageNodes, SR.NamedDriver, Coherent;
    forall n | n in Storage.StorageNodes(c, rules, s) { StandingIsCurrent(c, rules, s, n); }
  }

  lemma NamesOfMap<T(!new)>(xs: seq<T>, key: T -> string, ident: T -> CanonicalID, id: CanonicalID)
    requires forall x | x in xs :: key(x) in Index(xs, key, ident) && Index(xs, key, ident)[key(x)] == ident(x)
    ensures id in Index(xs, key, ident).Values <==> exists x | x in xs :: ident(x) == id
  {
    IndexMembers(xs, key, ident);
    hide Index;
  }

  lemma CurrentStorageIs(c: Text, rules: seq<CSIRule>, s: Snapshot, id: CanonicalID)
    requires StorageNamesIdentify(c, s)
    ensures id in Storage.CurrentIDs(StorageMapsOf(c, rules, s)) <==> IsCurrentStorage(c, rules, s, id)
  {
    CurrentObjectsAre(c, s, id);
    CurrentDriversAre(c, rules, s, id);
    hide PVCIDs, PVIDs, StorageClassIDs, CSIDriverIDs, IsDriver, PVCID, PVID, StorageClassID, StorageNamesIdentify;
  }

  lemma CurrentObjectsAre(c: Text, s: Snapshot, id: CanonicalID)
    requires StorageNamesIdentify(c, s)
    ensures id in PVCIDs(c, s.pvcs).Values <==> exists p | p in s.pvcs :: PVCID(c, p) == id
    ensures id in PVIDs(c, s.pvs).Values <==> exists p | p in s.pvs :: PVID(c, p) == id
    ensures id in StorageClassIDs(c, s.storageClasses).Values <==> exists x | x in s.storageClasses :: StorageClassID(c, x) == id
  {
    hide PVCIDs, PVIDs, StorageClassIDs, PVCID, PVID, StorageClassID, Namespaced, ClusterWide;
    CurrentClaimsAre(c, s, id);
    CurrentVolumesAre(c, s, id);
    CurrentClassesAre(c, s, id);
  }

  lemma CurrentClaimsAre(c: Text, s: Snapshot, id: CanonicalID)
    requires Namespaced(s.pvcs, PVCMeta(), PVCIDF(c))
    ensures id in PVCIDs(c, s.pvcs).Values <==> exists p | p in s.pvcs :: PVCID(c, p) == id
  {
    hide Index, PVCID, NsName, Namespaced;
    forall p | p in s.pvcs { ClaimIsListed(c, s, p); }
    NamesOfMap(s.pvcs, PVCKeyF(), PVCIDF(c), id);
  }

  lemma CurrentVolumesAre(c: Text, s: Snapshot, id: CanonicalID)
    requires ClusterWide(s.pvs, PVMeta(), PVIDF(c))
    ensures id in PVIDs(c, s.pvs).Values <==> exists p | p in s.pvs :: PVID(c, p) == id
  {
    hide Index, PVID, ClusterWide;
    forall p | p in s.pvs { VolumeIsListed(c, s, p); }
    NamesOfMap(s.pvs, PVKeyF(), PVIDF(c), id);
  }

  lemma CurrentClassesAre(c: Text, s: Snapshot, id: CanonicalID)
    requires ClusterWide(s.storageClasses, ClassMeta(), StorageClassIDF(c))
    ensures id in StorageClassIDs(c, s.storageClasses).Values <==> exists x | x in s.storageClasses :: StorageClassID(c, x) == id
  {
    hide Index, StorageClassID, ClusterWide;
    forall x | x in s.storageClasses { ClassesHave(c, s, x.meta.name, StorageClassID(c, x)); }
    NamesOfMap(s.storageClasses, StorageClassKeyF(), StorageClassIDF(c), id);
  }

  lemma CurrentDriversAre(c: Text, rules: seq<CSIRule>, s: Snapshot, id: CanonicalID)
    requires StorageNamesIdentify(c, s)
    ensures id in CSIDriverIDs(c, rules, s).Values <==> exists name: Text :: IsDriver(c, rules, s, name, id)
  {
    forall name: Text { DriverMapSays(c, rules, s, name, id); }
    forall d | d in CSIDriverIDs(c, rules, s) { DriverNamesAreText(c, rules, s, d); }
    hide CSIDriverIDs, IsDriver, StorageNamesIdentify;
  }

  /** An identity update removes exactly the accounts and bindings that the snapshot does not list. */
  lemma IdentityUpdateRemoves(g: Graph, c: Text, s: Snapshot, id: CanonicalID)
    requires g.Valid() && BindingNamesIdentify(c, s) && id in g.nodes
    ensures id in Identities.Reconciled(g, c, s).nodes <==>
      (g.nodes[id].kind in {ServiceAccount, RoleBinding, ClusterRoleBinding} ==> IsCurrentIdentity(c, s, id))
  {
    CurrentIdentityIs(c, s, id);
    Identities.KeptNodesAreUpserted(c, s);
    UpsertedIdentityIsCurrent(c, s);
    hide IdentityNodes, Identities.CurrentIDs, ToNodes, IsCurrentIdentity, Identities.IdentityEdges, ToEdges, BindingNamesIdentify;
    assert Doomed(g.WithoutEdges(Identities.IdentityKey()), Identities.StaleIdentity(Identities.CurrentIDs(c, s))) ==
      set u | u in g.nodes && g.nodes[u].kind in {ServiceAccount, RoleBinding, ClusterRoleBinding} && u !in Identities.CurrentIDs(c, s);
  }

  ghost predicate IsCurrentIdentity(c: Text, s: Snapshot, id: CanonicalID) {
    || (exists a | a in s.serviceAccounts :: ServiceAccountID(c, a) == id) || (exists b | b in s.roleBindings :: RoleBindingID(c, b) == id)
    || exists b | b in s.clusterRoleBindings :: ClusterRoleBindingID(c, b) == id
  }

  lemma UpsertedIdentityIsCurrent(c: Text, s: Snapshot)
    ensures forall id | id in ToNodes(IdentityNodes(c, s)) :: IsCurrentIdentity(c, s, id)
  {
    ToNodesMembers(IdentityNodes(c, s));
    IdentityNodesStand(c, [], s);
    PassiveNodeKinds(c, s);
    hide ToNodes, IdentityNodes, Flat, ServiceAccountID, RoleBindingID, ClusterRoleBindingID, Coherent;
    forall n | n in IdentityNodes(c, s)
      ensures IsCurrentIdentity(c, s, n.id)
    {
      assert Stands(c, [], s, n);
    }
  }

  lemma CurrentIdentityIs(c: Text, s: Snapshot, id: CanonicalID)
    requires BindingNamesIdentify(c, s)
    ensures id in Identities.CurrentIDs(c, s) <==> IsCurrentIdentity(c, s, id)
  {
    hide ServiceAccountIDs, RoleBindingIDs, ClusterRoleBindingIDs, ServiceAccountID, RoleBindingID, ClusterRoleBindingID, Namespaced, ClusterWide;
    CurrentAccountsAre(c, s, id);
    CurrentBindingsAre(c, s, id);
  }

  lemma CurrentAccountsAre(c: Text, s: Snapshot, id: CanonicalID)
    requires Namespaced(s.serviceAccounts, NamedMeta(), ServiceAccountIDF(c))
    ensures id in ServiceAccountIDs(c, s.serviceAccounts).Values <==> exists a | a in s.serviceAccounts :: ServiceAccountID(c, a) == id
  {
    hide Index, ServiceAccountID, NsName, Namespaced;
    forall a | a in s.serviceAccounts
      ensures NamedKeyF()(a) in ServiceAccountIDs(c, s.serviceAccounts) && ServiceAccountIDs(c, s.serviceAccounts)[NamedKeyF()(a)] == ServiceAccountID(c, a)
    {
      NamespacedHas(s.serviceAccounts, NamedKeyF(), NamedMeta(), ServiceAccountIDF(c), a.meta.namespace, a.meta.name, ServiceAccountID(c, a));
      assert NamedMeta()(a) == a.meta && ServiceAccountIDF(c)(a) == ServiceAccountID(c, a);
    }
    NamesOfMap(s.serviceAccounts, NamedKeyF(), ServiceAccountIDF(c), id);
  }

  lemma CurrentBindingsAre(c: Text, s: Snapshot, id: CanonicalID)
    requires BindingNamesIdentify(c, s)
    ensures id in RoleBindingIDs(c, s.roleBindings).Values <==> exists b | b in s.roleBindings :: RoleBindingID(c, b) == id
    ensures id in ClusterRoleBindingIDs(c, s.clusterRoleBindings).Values <==> exists b | b in s.clusterRoleBindings :: ClusterRoleBindingID(c, b) == id
  {
    forall b | b in s.roleBindings { BindingIsListed(c, s, b); }
    forall b | b in s.clusterRoleBindings { ClusterBindingIsListed(c, s, b); }
    hide Index, RoleBindingID, ClusterRoleBindingID, NsName, BindingNamesIdentify;
    NamesOfMap(s.roleBindings, BindingKeyF(), RoleBindingIDF(c), id);
    NamesOfMap(s.clusterRoleBindings, BindingNameF(), ClusterRoleBindingIDF(c), id);
  }

  /** A pod update removes no node but other pods of the name and images. */
  lemma PodUpdateRemoves(g: Graph, c: Text, s: Snapshot, namespace: Text, name: Text, change: ChangeType, id: CanonicalID)
    requires g.Valid() && namespace != "" && name != "" && id in g.nodes && g.nodes[id].kind != Image && Coherent(g.nodes[id])
    ensures var n, found := g.nodes[id], Pods.FindPod(s.pods, namespace, name);
            id in Pods.Reconciled(g, c, s, namespace, name, change).nodes <==>
              (n.kind == Pod && n.namespace == namespace && n.name == name ==> change == ChangeUpsert && found.ThePod? && PodID(c, found.pod) == id)
  {
    hide Pods.FindPod, PodID, Coherent;
    var found := Pods.FindPod(s.pods, namespace, name);
    if change == ChangeUpsert && found.ThePod? {
      UpsertRemoves(g, c, s, found.pod, namespace, name, id, Pods.ImagesReleased(g, namespace, name, PodID(c, found.pod)));
    } else {
      DeletionLeaves(g, namespace, name, id, Pods.ImagesReleased(g, namespace, name, ""));
    }
    hide Pods.PodsDeleted, Pods.Pruned, Pods.WithPod, Pods.ImagesReleased;
  }

  lemma UpsertRemoves(g: Graph, c: Text, s: Snapshot, p: KubePod, namespace: Text, name: Text, id: CanonicalID, released: set<CanonicalID>)
    requires g.Valid() && id in g.nodes && g.nodes[id].kind != Image && Coherent(g.nodes[id])
    ensures var n, keep := g.nodes[id], PodID(c, p);
            id in Pods.Pruned(Pods.WithPod(Pods.PodsDeleted(g, namespace, name, keep), c, s, p), released).nodes <==>
              !(n.kind == Pod && n.namespace == namespace && n.name == name && id != keep)
  {
    hide Pods.PodsDeleted, Pods.Pruned, Pods.WithPod, PodID;
    var cleared := Pods.PodsDeleted(g, namespace, name, PodID(c, p));
    DeletionRemoves(g, namespace, name, PodID(c, p), id);
    UpsertKeeps(cleared, c, s, p, id, g.nodes[id].kind);
    PruningKeeps(Pods.WithPod(cleared, c, s, p), released, id);
  }

  lemma DeletionLeaves(g: Graph, namespace: Text, name: Text, id: CanonicalID, released: set<CanonicalID>)
    requires g.Valid() && id in g.nodes && g.nodes[id].kind != Image && Coherent(g.nodes[id])
    ensures var n := g.nodes[id];
            id in Pods.Pruned(Pods.PodsDeleted(g, namespace, name, ""), released).nodes <==>
              !(n.kind == Pod && n.namespace == namespace && n.name == name)
  {
    NoEmptyID(g.nodes[id]);
    hide Pods.PodsDeleted, Pods.Pruned, Coherent;
    DeletionRemoves(g, namespace, name, "", id);
    PruningKeeps(Pods.PodsDeleted(g, namespace, name, ""), released, id);
  }

  lemma DeletionRemoves(g: Graph, namespace: Text, name: Text, keep: CanonicalID, id: CanonicalID)
    requires g.Valid() && id in g.nodes
    ensures var n, r := g.nodes[id], Pods.PodsDeleted(g, namespace, name, keep);
            && (id in r.nodes <==> !(n.kind == Pod && n.namespace == namespace && n.name == name && id != keep))
            && (id in r.nodes ==> r.nodes[id] == n)
  {
    hide Pods.PodScope;
  }

  lemma UpsertKeeps(g: Graph, c: Text, s: Snapshot, p: KubePod, id: CanonicalID, kind: NodeKind)
    requires KindTag(id) == NodeKindName(kind) && kind != Image
    ensures var r := Pods.WithPod(g, c, s, p);
            && (id in r.nodes <==> id in g.nodes || id == PodID(c, p))
            && (id in r.nodes ==> r.nodes[id].kind == if id == PodID(c, p) then Pod else g.nodes[id].kind)
  {
    ImagesAreNotIt(c, p.containerImages, id, kind);
    hide Pods.RebuiltPodEdges, PodID, ToEdges, ImageNodes, ToNodes;
  }

  lemma PruningKeeps(g: Graph, ids: set<CanonicalID>, id: CanonicalID)
    requires id in g.nodes ==> g.nodes[id].kind != Image
    ensures id in Pods.Pruned(g, ids).nodes <==> id in g.nodes
  {
  }

  lemma ImagesAreNotIt(c: Text, images: seq<Text>, id: CanonicalID, kind: NodeKind)
    requires KindTag(id) == NodeKindName(kind) && kind != Image
    ensures id !in ToNodes(ImageNodes(c, images))
  {
    ImageNodeKinds(c, images);
    ToNodesMembers(ImageNodes(c, images));
    hide ToNodes, ImageNodes, KindTag, NodeKindName;
    if id in ToNodes(ImageNodes(c, images)) {
      NodeKindNameIsInjective(Image, kind);
    }
  }

  lemma NoEmptyID(n: Node)
    requires Coherent(n)
    ensures n.id != ""
  {
    assert KindTag("") == "";
    assert NodeKindName(n.kind) != "";
  }

  /** A workload update removes exactly the workloads of the name that the snapshot does not list under it. */
  lemma WorkloadUpdateRemoves(g: Graph, c: Text, s: Snapshot, namespace: Text, name: Text, change: ChangeType, evidence: seq<Edge>, id: CanonicalID)
    requires g.Valid() && namespace != "" && name != "" && id in g.nodes
    ensures var n := g.nodes[id];
            id in Workloads.Reconciled(g, c, s, namespace, name, change, evidence).nodes <==>
              (n.kind == Workload && n.namespace == namespace && n.name == name ==>
                 change == ChangeUpsert && exists w | w in s.workloads :: w.meta.namespace == namespace && w.meta.name == name && WorkloadID(c, w) == id)
  {
    Workloads.KeptAreTheNamed(c, s, namespace, name, change, id);
    var kept := Workloads.Kept(c, s, namespace, name, change);
    KeptHaveNodes(c, kept);
    PreparedNodes(g, c, kept, namespace, name, id);
    assert ToNodes([]) == map[];
    hide Workloads.Kept, Workloads.WorkloadIDSet, Workloads.WorkloadNodes, Workloads.WorkloadsDeleted, Workloads.RebuiltWorkloadEdges, ToNodes, ToEdges, WorkloadID;
  }

  lemma PreparedNodes(g: Graph, c: Text, kept: seq<KubeWorkload>, namespace: Text, name: Text, id: CanonicalID)
    requires g.Valid() && id in g.nodes
    ensures var n, ids := g.nodes[id], Workloads.WorkloadIDSet(c, kept);
            id in Workloads.WorkloadsDeleted(g, namespace, name, ids).nodes <==>
              !(n.kind == Workload && n.namespace == namespace && n.name == name && id !in ids)
  {
    hide Workloads.WorkloadIDSet, Workloads.WorkloadScope;
  }

  lemma WorkloadNodesAre(c: Text, kept: seq<KubeWorkload>, n: Node)
    ensures n in Workloads.WorkloadNodes(c, kept) <==> exists w | w in kept :: n == WorkloadNode(c, w)
  {
    FlatMembers(kept, WorkloadNodeF(c));
    hide Flat, WorkloadNode;
    if w :| w in kept && n == WorkloadNode(c, w) {
      assert n in WorkloadNodeF(c)(w);
    }
  }

  lemma KeptHaveNodes(c: Text, kept: seq<KubeWorkload>)
    ensures ToNodes(Workloads.WorkloadNodes(c, kept)).Keys == Workloads.WorkloadIDSet(c, kept)
  {
    var ns := Workloads.WorkloadNodes(c, kept);
    ToNodesMembers(ns);
    forall n { WorkloadNodesAre(c, kept, n); }
    assert forall w :: WorkloadNode(c, w).id == WorkloadID(c, w);
    hide ToNodes, WorkloadID, WorkloadNode, Workloads.WorkloadNodes;
    forall id
      ensures id in ToNodes(ns) <==> id in Workloads.WorkloadIDSet(c, kept)
    {
      if w :| w in kept && WorkloadID(c, w) == id {
        assert WorkloadNode(c, w) in ns;
      }
    }
  }

  /** A service update that finds no service removes exactly those of the name, any other removes none. */
  lemma ServiceUpdateRemoves(g: Graph, c: Text, s: Snapshot, namespace: Text, name: Text, change: ChangeType, id: CanonicalID)
    requires g.Valid() && namespace != "" && name != "" && id in g.nodes
    ensures var n := g.nodes[id];
            id in Services.Reconciled(g, c, s, namespace, name, change).nodes <==>
              (n.kind == Service && n.namespace == namespace && n.name == name ==>
                 change == ChangeUpsert && exists v | v in s.services :: v.meta.namespace == namespace && v.meta.name == name)
  {
    Services.FindServiceFinds(s.services, namespace, name);
    NotFound(s.services, namespace, name);
    hide Services.FindService, Flat, Services.SelectedF, ToEdges, ServiceID;
    assert ToNodes([]) == map[];
  }

  lemma {:induction false} NotFound(services: seq<KubeService>, namespace: Text, name: Text)
    ensures Services.FindService(services, namespace, name).NoService? ==>
      forall v | v in services :: !(v.meta.namespace == namespace && v.meta.name == name)
  {
    if services != [] {
      NotFound(services[1..], namespace, name);
      assert services == [services[0]] + services[1..];
    }
  }

  /** An update of an event removes no node but events of the name. */
  lemma EventUpdateRemoves(g: Graph, c: Text, s: Snapshot, namespace: Text, name: Text, change: ChangeType, evidence: seq<Edge>, id: CanonicalID)
    requires g.Valid() && namespace != "" && name != "" && id in g.nodes
    ensures var n, found := g.nodes[id], Events.FindEvent(s.events, namespace, name);
            id in Events.Reconciled(g, c, s, namespace, name, change, evidence).nodes <==>
              (n.kind == Event && n.namespace == namespace && n.name == name ==>
                 change == ChangeUpsert && found.TheEvent? && EventID(c, found.event) == id)
  {
    hide Events.FindEvent, EventEdges, EventTargets, ToEdges, EventID;
    assert ToNodes([]) == map[];
  }
}
