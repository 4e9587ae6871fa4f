/** What Kubernetes guarantees about names and UIDs gives the conditions the other modules rely on. */
module PlainNames {
  import opened Identity
  import opened Strings
  import opened GraphModel
  import opened Resources
  import opened OwnerChain
  import opened OwnerReach
  import opened OwnerLookup
  import opened SnapshotOrder
  import OwnerLoss
  import PodRefinement
  import ServiceReconciler
  import opened SnapshotLinks

  // ---- Workloads and replica sets ----

  predicate PlainOwner(o: OwnerObject) {
    '/' !in o.namespace && '/' !in o.kind && '/' !in o.name && '/' !in o.uid && o.uid != ""
  }

  predicate SameName(a: OwnerObject, b: OwnerObject) {
    a.namespace == b.namespace && a.kind == b.kind && a.name == b.name
  }

  /** One object per namespace, kind and name, and one per UID. */
  ghost predicate ListedOnce(objs: seq<OwnerObject>) {
    forall a, b | a in objs && b in objs && (SameName(a, b) || a.uid == b.uid) :: a == b
  }

  lemma SharedRefKey(a: OwnerObject, b: OwnerObject, k: string)
    requires PlainOwner(a) && PlainOwner(b) && k in RefKeys(a) && k in RefKeys(b)
    ensures SameName(a, b)
  {
    VersionsShow(a.namespace, a.kind, a.name, b.namespace, b.apiVersion, b.kind, b.name);
    VersionsShow(b.namespace, b.kind, b.name, a.namespace, a.apiVersion, a.kind, a.name);
    if k == RefKey(a.namespace, a.kind, a.name) {
      ThreeParts(a.namespace, a.kind, a.name, b.namespace, b.kind, b.name);
    } else {
      VersionedParts(a.namespace, a.apiVersion, a.kind, a.name, b.namespace, b.apiVersion, b.kind, b.name);
    }
  }

  lemma SharedUIDKey(a: OwnerObject, b: OwnerObject)
    requires PlainOwner(a) && PlainOwner(b) && UIDKey(a.namespace, a.kind, a.uid) == UIDKey(b.namespace, b.kind, b.uid)
    ensures a.uid == b.uid
  {
    ThreeParts(a.namespace, a.kind, a.uid, b.namespace, b.kind, b.uid);
  }

  lemma SharedWorkloadID(cluster: Text, v: KubeWorkload, w: KubeWorkload)
    requires WorkloadID(cluster, v) == WorkloadID(cluster, w)
    requires '/' !in v.meta.uid && '/' !in w.meta.uid && v.meta.uid != "" && w.meta.uid != ""
    ensures v.meta.uid == w.meta.uid
  {
    hide ResourceID, Normalize;
    ResourceIDDetermines(cluster, "apps", Workload, v.meta.namespace, v.controllerKind + ":" + v.meta.name, v.meta.uid,
                         w.meta.namespace, w.controllerKind + ":" + w.meta.name, w.meta.uid);
  }

  lemma OwnersFromLists(cluster: Text, workloads: seq<KubeWorkload>, replicaSets: seq<KubeReplicaSet>, o: OwnerObject)
    requires o in OwnerObjects(cluster, workloads, replicaSets)
    ensures if o.workload then exists w | w in workloads :: WorkloadObject(cluster, w) == o
            else exists x | x in replicaSets :: ReplicaSetObject(x) == o
  {
    hide WorkloadObject, ReplicaSetObject;
    KindsOfObjects(cluster);
    var objs := OwnerObjects(cluster, workloads, replicaSets);
    var i :| 0 <= i < |objs| && objs[i] == o;
    if i < |workloads| {
      assert workloads[i] in workloads;
    } else {
      assert replicaSets[i - |workloads|] in replicaSets;
    }
  }

  lemma KindsOfObjects(cluster: Text)
    ensures (forall w :: WorkloadObject(cluster, w).workload) && forall x :: !ReplicaSetObject(x).workload
  {
  }

  lemma SharedTarget(cluster: Text, workloads: seq<KubeWorkload>, replicaSets: seq<KubeReplicaSet>, a: OwnerObject, b: OwnerObject)
    requires var objs := OwnerObjects(cluster, workloads, replicaSets); a in objs && b in objs
    requires PlainOwner(a) && PlainOwner(b) && a.workload && b.workload
    requires a.target.id == b.target.id || TargetKey()(a.target) == TargetKey()(b.target)
    ensures a.uid == b.uid
  {
    OwnersFromLists(cluster, workloads, replicaSets, a);
    OwnersFromLists(cluster, workloads, replicaSets, b);
    hide WorkloadID, OwnerObjects;
    var v :| v in workloads && WorkloadObject(cluster, v) == a;
    var w :| w in workloads && WorkloadObject(cluster, w) == b;
    var keys := TargetKey();
    assert keys(a.target) == keys(b.target) ==> keys(a.target)[3] == keys(b.target)[3];
    if a.target.id == b.target.id {
      SharedWorkloadID(cluster, v, w);
    }
  }

  lemma ConfusableShare(cluster: Text, workloads: seq<KubeWorkload>, replicaSets: seq<KubeReplicaSet>, a: OwnerObject, b: OwnerObject)
    requires var objs := OwnerObjects(cluster, workloads, replicaSets); a in objs && b in objs
    requires PlainOwner(a) && PlainOwner(b) && Confusable(a, b)
    ensures SameName(a, b) || a.uid == b.uid
  {
    hide RefKeys, OwnerObjects, TargetKey, UIDKey;
    if !(RefKeys(a) !! RefKeys(b)) {
      var k :| k in RefKeys(a) && k in RefKeys(b);
      SharedRefKey(a, b, k);
    } else if !(UIDKeys(a) !! UIDKeys(b)) || SeenKey(a) == SeenKey(b) {
      SharedUIDKey(a, b);
    } else {
      SharedTarget(cluster, workloads, replicaSets, a, b);
    }
  }

  /** Non-empty unique UIDs, one object per name and fields free of '/' keep owners distinct, and so tell them apart everywhere. */
  lemma PlainOwnersAreDistinct(cluster: Text, workloads: seq<KubeWorkload>, replicaSets: seq<KubeReplicaSet>)
    requires var objs := OwnerObjects(cluster, workloads, replicaSets); ListedOnce(objs) && forall o | o in objs :: PlainOwner(o)
    ensures DistinctOwners(OwnerObjects(cluster, workloads, replicaSets)) && OwnerLoss.OwnNames(OwnerObjects(cluster, workloads, replicaSets))
    ensures var r := NewChainResolver(cluster, workloads, replicaSets); KeysIdentify(r) && ToldApart(r) && TargetsIdentify(r)
  {
    var objs, r := OwnerObjects(cluster, workloads, replicaSets), NewChainResolver(cluster, workloads, replicaSets);
    ObjectsComeFromTheLists(objs);
    hide PlainOwner, AddAll, RefKeys, UIDKeys, SeenKey, OwnerObjects, TargetKey, SameName, Resolver.Objects, ToldApart;
    forall a, b | a in objs && b in objs && Confusable(a, b)
      ensures a == b
    {
      ConfusableShare(cluster, workloads, replicaSets, a, b);
    }
    KeysTellApart(r);
  }

  // ---- Services ----

  /** Services listed once under their name have distinct identifiers as soon as their fields are free of '/'. */
  lemma PlainServicesAreDistinct(c: Text, services: seq<KubeService>)
    requires forall v | v in services :: Plain(v.meta.namespace) && Plain(v.meta.name)
    requires forall v, w | v in services && w in services && v.meta.namespace == w.meta.namespace && v.meta.name == w.meta.name :: v == w
    ensures ServiceReconciler.DistinctServices(c, services) && PodRefinement.UniqueServices(c, services)
  {
    hide ResourceID, Normalize;
    forall v, w | v in services && w in services && (MetaKey(v.meta) == MetaKey(w.meta) || ServiceID(c, v) == ServiceID(c, w))
      ensures v == w
    {
      if MetaKey(v.meta) == MetaKey(w.meta) {
        CutIsUnique(v.meta.namespace, w.meta.namespace, v.meta.name, w.meta.name, '/');
      } else {
        ResourceIDDetermines(c, "core", Service, v.meta.namespace, v.meta.name, v.meta.uid, w.meta.namespace, w.meta.name, w.meta.uid);
        PlainFieldSurvives(v.meta.namespace, w.meta.namespace);
        PlainFieldSurvives(v.meta.name, w.meta.name);
      }
    }
  }

  // ---- Names and UIDs ----

  /** Each namespace and name listed once, both free of '/'. */
  ghost predicate Once<T(!new)>(xs: seq<T>, meta: T -> Metadata) {
    && (forall x | x in xs :: '/' !in meta(x).namespace && '/' !in meta(x).name)
    && forall x, y | x in xs && y in xs && meta(x).namespace == meta(y).namespace && meta(x).name == meta(y).name :: x == y
  }

  /** Each name of an object outside namespaces listed once. */
  ghost predicate OnceByName<T(!new)>(xs: seq<T>, meta: T -> Metadata) {
    forall x, y | x in xs && y in xs && meta(x).name == meta(y).name :: x == y
  }

  /** Names listed once identify their objects. */
  lemma NamesListedOnceIdentify(c: Text, s: Snapshot)
    requires Once(s.pods, PodMeta()) && Once(s.services, ServiceMeta()) && Once(s.configMaps, NamedMeta()) && Once(s.secrets, NamedMeta())
    requires Once(s.serviceAccounts, NamedMeta()) && Once(s.roleBindings, BindingMeta()) && Once(s.pvcs, PVCMeta())
    requires OnceByName(s.nodes, NodeMeta()) && OnceByName(s.clusterRoleBindings, BindingMeta()) && OnceByName(s.pvs, PVMeta())
    requires OnceByName(s.storageClasses, ClassMeta()) && OnceByName(s.csiDrivers, NamedMeta())
    ensures PodNamesIdentify(c, s) && BindingNamesIdentify(c, s) && StorageNamesIdentify(c, s)
  {
    hide PodIDF, ServiceIDF, ConfigMapIDF, SecretIDF, ServiceAccountIDF, RoleBindingIDF, PVCIDF, NodeIDF, ClusterRoleBindingIDF, PVIDF, StorageClassIDF,
         DriverIDF;
  }

  /** So do UIDs, when each list holds each UID once and no workload is of a kind that is listed on its own. */
  lemma UniqueUIDsIdentify(c: Text, s: Snapshot)
    requires forall x, y | x in s.workloads && y in s.workloads && x.meta.uid == y.meta.uid :: x == y
    requires forall x, y | x in s.pods && y in s.pods && x.meta.uid == y.meta.uid :: x == y
    requires forall x, y | x in s.nodes && y in s.nodes && x.meta.uid == y.meta.uid :: x == y
    requires forall x, y | x in s.services && y in s.services && x.meta.uid == y.meta.uid :: x == y
    requires forall x, y | x in s.serviceAccounts && y in s.serviceAccounts && x.meta.uid == y.meta.uid :: x == y
    requires forall x, y | x in s.pvcs && y in s.pvcs && x.meta.uid == y.meta.uid :: x == y
    requires forall x, y | x in s.pvs && y in s.pvs && x.meta.uid == y.meta.uid :: x == y
    requires forall w | w in s.workloads ::
      w.controllerKind !in {"Pod", "Node", "Service", "ServiceAccount", "PersistentVolumeClaim", "PersistentVolume"} && '/' !in w.controllerKind
    requires forall e | e in s.events :: '/' !in e.involvedKind
    ensures UIDsIdentify(c, s)
  {
    hide WorkloadID, PodID, NodeID, ServiceID, ServiceAccountID, PVCID, PVID;
  }
}
