/** A storage update leaves exactly the storage part of a full rebuild, from any prior state. */
module StorageRefinement {
  import opened Identity
  import opened Sorting
  import opened GraphModel
  import opened Resources
  import opened Csi
  import opened Builder
  import opened RebuildSections
  import opened KernelLoops
  import opened StorageReconciler

  const STORAGE_NODES: set<NodeKind> := {PVC, PV, StorageClass, CSIDriver}

  /** Pods listed under one name share one identifier, so the name map agrees with the object itself. */
  ghost predicate UniquePods(c: Text, pods: seq<KubePod>) {
    forall p, q | p in pods && q in pods && MetaKey(p.meta) == MetaKey(q.meta) :: PodID(c, p) == PodID(c, q)
  }

  ghost predicate IsDriverName(s: Snapshot, name: Text) {
    (exists d | d in s.csiDrivers :: d.meta.name == name) || (exists sc | sc in s.storageClasses :: sc.provisioner == name)
  }

  /** No two driver names are merged by normalisation. */
  ghost predicate SeparateDrivers(s: Snapshot) {
    forall a: Text, b: Text | IsDriverName(s, a) && IsDriverName(s, b) && Normalize(a) == Normalize(b) :: a == b
  }

  /** Names free of '/' are never merged, so on them the condition always holds. */
  lemma PlainDriversAreSeparate(s: Snapshot)
    requires forall name: Text | IsDriverName(s, name) :: Plain(name)
    ensures SeparateDrivers(s)
  {
    hide IsDriverName;
    forall a: Text, b: Text | IsDriverName(s, a) && IsDriverName(s, b) && Normalize(a) == Normalize(b) { PlainFieldSurvives(a, b); }
  }

  lemma UniquePodsAreListed(c: Text, pods: seq<KubePod>, p: KubePod)
    requires UniquePods(c, pods) && p in pods
    ensures ListedPodID(c, PodIDs(c, pods), p) == PodID(c, p)
    ensures MetaKey(p.meta) in PodIDs(c, pods) && PodIDs(c, pods)[MetaKey(p.meta)] == PodID(c, p)
  {
    hide PodID, MetaKey;
    IndexIsExact(pods, PodKeyF(), PodIDF(c), p);
  }

  lemma DriverIDsDetermineNames(c: Text, s: Snapshot, a: Text, ua: Text, b: Text, ub: Text)
    requires SeparateDrivers(s) && IsDriverName(s, a) && IsDriverName(s, b) && CSIDriverID(c, a, ua) == CSIDriverID(c, b, ub)
    ensures a == b
  {
    hide Normalize, ResourceID, IsDriverName;
    ResourceIDDetermines(c, "storage.k8s.io", CSIDriver, "", a, ua, "", b, ub);
  }

  // ---- Driver identifiers ----

  lemma {:induction false} SyntheticMembers(c: Text, rules: seq<CSIRule>, observed: map<string, CanonicalID>, scs: seq<KubeStorageClass>)
    ensures var m := WithSynthetic(c, rules, observed, scs);
            && (forall d | d in observed :: d in m && m[d] == observed[d])
            && (forall d | d in m && d !in observed :: exists sc | sc in scs ::
                  sc.provisioner == d && sc.provisioner != "" && IsCSIProvisioner(d, false, rules) && m[d] == CSIDriverID(c, sc.provisioner, ""))
            && (forall sc | sc in scs && sc.provisioner != "" && IsCSIProvisioner(sc.provisioner, false, rules) :: sc.provisioner in m)
  {
    hide IsCSIProvisioner, CSIDriverID;
    if scs != [] {
      SyntheticMembers(c, rules, observed, scs[..|scs| - 1]);
      assert scs == scs[..|scs| - 1] + [scs[|scs| - 1]];
    }
  }

  /** Every entry of the driver map is the identifier of an upserted driver node of that name. */
  lemma DriversAreNodes(c: Text, rules: seq<CSIRule>, s: Snapshot, d: string)
    requires d in CSIDriverIDs(c, rules, s)
    ensures exists n | n in StorageNodes(c, rules, s) :: n.id == CSIDriverIDs(c, rules, s)[d] && n.kind == CSIDriver && n.name == d
  {
    hide CSIDriverID, IsCSIProvisioner;
    var observed := ObservedDriverIDs(c, s.csiDrivers);
    SyntheticMembers(c, rules, observed, s.storageClasses);
    IndexMembers(s.csiDrivers, DriverKeyF(), DriverIDF(c));
    FlatMembers(s.csiDrivers, CSIDriverNodeF(c));
    FlatMembers(s.storageClasses, SyntheticF(c, rules, s.csiDrivers));
    if d in observed {
      var x :| x in s.csiDrivers && DriverKeyF()(x) == d && DriverIDF(c)(x) == observed[d];
      assert CSIDriverNode(c, x) in CSIDriverNodeF(c)(x);
      assert CSIDriverNode(c, x) in Flat(s.csiDrivers, CSIDriverNodeF(c));
    } else {
      var sc :| sc in s.storageClasses && sc.provisioner == d && sc.provisioner != "" && IsCSIProvisioner(d, false, rules)
        && CSIDriverIDs(c, rules, s)[d] == CSIDriverID(c, sc.provisioner, "");
      assert !Observed(s.csiDrivers, d) by {
        assert forall x | x in s.csiDrivers :: DriverKeyF()(x) == x.meta.name;
      }
      assert SyntheticCSIDriverNode(c, sc.provisioner) in SyntheticF(c, rules, s.csiDrivers)(sc);
      assert SyntheticCSIDriverNode(c, sc.provisioner) in Flat(s.storageClasses, SyntheticF(c, rules, s.csiDrivers));
    }
  }

  /** Every driver node carries a driver name and an identifier made from it. */
  ghost predicate NamedDriver(c: Text, s: Snapshot, n: Node) {
    n.kind == CSIDriver ==> IsDriverName(s, n.name) && exists uid: Text :: n.id == CSIDriverID(c, n.name, uid)
  }

  lemma ObservedDriversAreNamed(c: Text, s: Snapshot)
    ensures forall n | n in ObservedStorageNodes(c, s) :: NamedDriver(c, s, n)
  {
    hide CSIDriverID, Flat, PVCID, PVID, StorageClassID;
    FlatMembers(s.pvcs, PVCNodeF(c));
    FlatMembers(s.pvs, PVNodeF(c));
    FlatMembers(s.storageClasses, StorageClassNodeF(c));
    FlatMembers(s.csiDrivers, CSIDriverNodeF(c));
    assert forall n | n in Flat(s.pvcs, PVCNodeF(c)) :: n.kind == PVC;
    assert forall n | n in Flat(s.pvs, PVNodeF(c)) :: n.kind == PV;
    assert forall n | n in Flat(s.storageClasses, StorageClassNodeF(c)) :: n.kind == StorageClass;
    assert forall n | n in Flat(s.csiDrivers, CSIDriverNodeF(c)) :: NamedDriver(c, s, n);
  }

  lemma SyntheticDriversAreNamed(c: Text, rules: seq<CSIRule>, s: Snapshot)
    ensures forall n | n in Flat(s.storageClasses, SyntheticF(c, rules, s.csiDrivers)) :: NamedDriver(c, s, n)
  {
    hide CSIDriverID;
    FlatMembers(s.storageClasses, SyntheticF(c, rules, s.csiDrivers));
  }

  lemma {:induction false} BuildSyntheticFromReconciler(c: Text, rules: seq<CSIRule>, drivers: seq<KubeNamed>, scs: seq<KubeStorageClass>)
    ensures forall n | n in SyntheticNodes(c, rules, ObservedDriverIDs(c, drivers), scs) :: n in Flat(scs, SyntheticF(c, rules, drivers))
    ensures forall n | n in Flat(scs, SyntheticF(c, rules, drivers)) :: n in SyntheticNodes(c, rules, ObservedDriverIDs(c, drivers), scs)
  {
    hide CSIDriverID, IsCSIProvisioner, SyntheticCSIDriverNode;
    var observed := ObservedDriverIDs(c, drivers);
    if scs != [] {
      var init, sc := scs[..|scs| - 1], scs[|scs| - 1];
      BuildSyntheticFromReconciler(c, rules, drivers, init);
      SyntheticMembers(c, rules, observed, init);
      IndexMembers(drivers, DriverKeyF(), DriverIDF(c));
      FlatMembers(init, SyntheticF(c, rules, drivers));
      assert forall d | d in drivers :: DriverKeyF()(d) == d.meta.name;
      assert sc.provisioner in observed <==> Observed(drivers, sc.provisioner);
      if sc.provisioner in WithSynthetic(c, rules, observed, init) && sc.provisioner !in observed && sc.provisioner != "" {
        var earlier :| earlier in init && earlier.provisioner == sc.provisioner;
        assert SyntheticCSIDriverNode(c, sc.provisioner) in SyntheticF(c, rules, drivers)(earlier) || !IsCSIProvisioner(sc.provisioner, false, rules);
      }
    }
  }

  // ---- Nodes ----

  /** Whatever node ends up under a driver's identifier is named after the driver. */
  lemma NodeAtDriverIsNamed(c: Text, rules: seq<CSIRule>, s: Snapshot, d: string, n: Node)
    requires SeparateDrivers(s) && d in CSIDriverIDs(c, rules, s) && n.id == CSIDriverIDs(c, rules, s)[d]
    requires Coherent(n) && NamedDriver(c, s, n)
    ensures n.kind == CSIDriver && n.name == d
  {
    DriversAreNodes(c, rules, s, d);
    ObservedDriversAreNamed(c, s);
    SyntheticDriversAreNamed(c, rules, s);
    hide CSIDriverIDs, Flat, ObservedStorageNodes;
    var own :| own in StorageNodes(c, rules, s) && own.id == n.id && own.kind == CSIDriver && own.name == d;
    assert NamedDriver(c, s, own);
    var u: Text :| own.id == CSIDriverID(c, own.name, u);
    assert KindTag(n.id) == NodeKindName(CSIDriver);
    NodeKindNameIsInjective(n.kind, CSIDriver);
    var v: Text :| n.id == CSIDriverID(c, n.name, v);
    DriverIDsDetermineNames(c, s, own.name, u, n.name, v);
  }

  lemma {:induction false} DriverNameIs(nodes: seq<Node>, id: CanonicalID, d: string)
    requires forall n | n in nodes && n.id == id :: n.name == d
    ensures DriverName(nodes, id, d) == d
  {
    if nodes != [] {
      DriverNameIs(nodes[1..], id, d);
    }
  }

  lemma BuildNodesAreNamed(c: Text, rules: seq<CSIRule>, x: Inferred, s: Snapshot)
    requires InferredShape(x)
    ensures forall n | n in BuildNodes(c, rules, x, s) :: Coherent(n) && NamedDriver(c, s, n)
  {
    var synthetic := SyntheticNodes(c, rules, ObservedDriverIDs(c, s.csiDrivers), s.storageClasses);
    SnapshotNodeKinds(c, s);
    SyntheticNodeKinds(c, rules, ObservedDriverIDs(c, s.csiDrivers), s.storageClasses);
    ObservedDriversAreNamed(c, s);
    SyntheticDriversAreNamed(c, rules, s);
    BuildSyntheticFromReconciler(c, rules, s.csiDrivers, s.storageClasses);
    hide Flat, NodesBeforeStorage, IdentityNodes, ObservedStorageNodes, SyntheticNodes, Coherent, IsDriverName, CSIDriverID, ObservedDriverIDs;
    forall n | n in BuildNodes(c, rules, x, s)
      ensures Coherent(n) && NamedDriver(c, s, n)
    {
      assert n in NodesBeforeStorage(c, s) || n in IdentityNodes(c, s) || n in ObservedStorageNodes(c, s)
          || n in Flat(s.webhookConfigs, WebhookNodeF(c)) || n in x.helmNodes || n in Flat(s.events, EventNodeF(c)) || n in synthetic;
    }
  }

  /** On either side a driver's component edges are looked up under its own name. */
  lemma DriverNamesAgree(c: Text, rules: seq<CSIRule>, x: Inferred, s: Snapshot, nodes: NodeMap)
    requires InferredShape(x) && SeparateDrivers(s)
    ensures var drivers := CSIDriverIDs(c, rules, s);
            BuildDriverNames(c, rules, x, s) == KernelDriverNames(drivers, nodes + ToNodes(StorageNodes(c, rules, s)))
  {
    forall d | d in CSIDriverIDs(c, rules, s)
      ensures DriverName(BuildNodes(c, rules, x, s), CSIDriverIDs(c, rules, s)[d], d) == d
      ensures CSIDriverIDs(c, rules, s)[d] in ToNodes(StorageNodes(c, rules, s))
              && ToNodes(StorageNodes(c, rules, s))[CSIDriverIDs(c, rules, s)[d]].name == d
    {
      BuildNameIs(c, rules, x, s, d);
      UpsertedNameIs(c, rules, s, d);
    }
    hide BuildNodes, StorageNodes, CSIDriverIDs, DriverName, ToNodes;
  }

  lemma BuildNameIs(c: Text, rules: seq<CSIRule>, x: Inferred, s: Snapshot, d: string)
    requires InferredShape(x) && SeparateDrivers(s) && d in CSIDriverIDs(c, rules, s)
    ensures DriverName(BuildNodes(c, rules, x, s), CSIDriverIDs(c, rules, s)[d], d) == d
  {
    BuildNodesAreNamed(c, rules, x, s);
    hide BuildNodes, CSIDriverIDs, Coherent, NamedDriver, DriverName, SeparateDrivers;
    forall n | n in BuildNodes(c, rules, x, s) && n.id == CSIDriverIDs(c, rules, s)[d]
      ensures n.name == d
    {
      NodeAtDriverIsNamed(c, rules, s, d, n);
    }
    DriverNameIs(BuildNodes(c, rules, x, s), CSIDriverIDs(c, rules, s)[d], d);
  }

  lemma UpsertedNameIs(c: Text, rules: seq<CSIRule>, s: Snapshot, d: string)
    requires SeparateDrivers(s) && d in CSIDriverIDs(c, rules, s)
    ensures CSIDriverIDs(c, rules, s)[d] in ToNodes(StorageNodes(c, rules, s))
    ensures ToNodes(StorageNodes(c, rules, s))[CSIDriverIDs(c, rules, s)[d]].name == d
  {
    StorageNodesAreNamed(c, rules, s);
    ToNodesMembers(StorageNodes(c, rules, s));
    DriversAreNodes(c, rules, s, d);
    hide StorageNodes, CSIDriverIDs, Coherent, NamedDriver, ToNodes, SeparateDrivers;
    NodeAtDriverIsNamed(c, rules, s, d, ToNodes(StorageNodes(c, rules, s))[CSIDriverIDs(c, rules, s)[d]]);
  }

  lemma StorageNodesAreNamed(c: Text, rules: seq<CSIRule>, s: Snapshot)
    ensures NodesIn(StorageNodes(c, rules, s), STORAGE_NODES)
    ensures forall n | n in StorageNodes(c, rules, s) :: NamedDriver(c, s, n)
  {
    StorageNodeKinds(c, s);
    FlatMembers(s.storageClasses, SyntheticF(c, rules, s.csiDrivers));
    ObservedDriversAreNamed(c, s);
    SyntheticDriversAreNamed(c, rules, s);
    hide NamedDriver, Flat, ObservedStorageNodes;
  }

  /** Everything the update keeps it also upserts. */
  lemma KeptNodesAreUpserted(c: Text, rules: seq<CSIRule>, s: Snapshot)
    ensures CurrentIDs(StorageMapsOf(c, rules, s)) <= ToNodes(StorageNodes(c, rules, s)).Keys
  {
    ToNodesMembers(StorageNodes(c, rules, s));
    hide ToNodes, PVCID, PVID, StorageClassID;
    forall id | id in CurrentIDs(StorageMapsOf(c, rules, s))
      ensures exists n | n in StorageNodes(c, rules, s) :: n.id == id
    {
      if d :| d in CSIDriverIDs(c, rules, s) && CSIDriverIDs(c, rules, s)[d] == id {
        DriversAreNodes(c, rules, s, d);
      } else {
        NamedMapsAreNodes(c, rules, s, id);
      }
    }
  }

  lemma ClaimsAreNodes(c: Text, s: Snapshot, id: CanonicalID)
    requires id in PVCIDs(c, s.pvcs).Values
    ensures exists n | n in ObservedStorageNodes(c, s) :: n.id == id
  {
    hide PVCID, Index, Flat, PVNodeF, StorageClassNodeF, CSIDriverNodeF;
    IndexMembers(s.pvcs, PVCKeyF(), PVCIDF(c));
    FlatMembers(s.pvcs, PVCNodeF(c));
    var y :| y in s.pvcs && PVCIDF(c)(y) == id;
    assert PVCNode(c, y) in PVCNodeF(c)(y);
    assert PVCNode(c, y) in Flat(s.pvcs, PVCNodeF(c));
  }

  lemma VolumesAreNodes(c: Text, s: Snapshot, id: CanonicalID)
    requires id in PVIDs(c, s.pvs).Values
    ensures exists n | n in ObservedStorageNodes(c, s) :: n.id == id
  {
    hide PVID, Index, Flat, PVCNodeF, StorageClassNodeF, CSIDriverNodeF;
    IndexMembers(s.pvs, PVKeyF(), PVIDF(c));
    FlatMembers(s.pvs, PVNodeF(c));
    var y :| y in s.pvs && PVIDF(c)(y) == id;
    assert PVNode(c, y) in PVNodeF(c)(y);
    assert PVNode(c, y) in Flat(s.pvs, PVNodeF(c));
  }

  lemma ClassesAreNodes(c: Text, s: Snapshot, id: CanonicalID)
    requires id in StorageClassIDs(c, s.storageClasses).Values
    ensures exists n | n in ObservedStorageNodes(c, s) :: n.id == id
  {
    hide StorageClassID, Index, Flat, PVCNodeF, PVNodeF, CSIDriverNodeF;
    IndexMembers(s.storageClasses, StorageClassKeyF(), StorageClassIDF(c));
    FlatMembers(s.storageClasses, StorageClassNodeF(c));
    var y :| y in s.storageClasses && StorageClassIDF(c)(y) == id;
    assert StorageClassNode(c, y) in StorageClassNodeF(c)(y);
    assert StorageClassNode(c, y) in Flat(s.storageClasses, StorageClassNodeF(c));
  }

  lemma NamedMapsAreNodes(c: Text, rules: seq<CSIRule>, s: Snapshot, id: CanonicalID)
    requires id in PVCIDs(c, s.pvcs).Values || id in PVIDs(c, s.pvs).Values || id in StorageClassIDs(c, s.storageClasses).Values
    ensures exists n | n in StorageNodes(c, rules, s) :: n.id == id
  {
    hide PVCIDs, PVIDs, StorageClassIDs, ObservedStorageNodes, Flat;
    if id in PVCIDs(c, s.pvcs).Values {
      ClaimsAreNodes(c, s, id);
    } else if id in PVIDs(c, s.pvs).Values {
      VolumesAreNodes(c, s, id);
    } else {
      ClassesAreNodes(c, s, id);
    }
    var n :| n in ObservedStorageNodes(c, s) && n.id == id;
    assert n in StorageNodes(c, rules, s);
  }

  /** Node lists with the same members agree as maps when an identifier determines the node. */
  lemma SameMembersSameMap(a: seq<Node>, b: seq<Node>)
    requires forall n :: n in a <==> n in b
    requires forall n, m | n in a && m in a && n.id == m.id :: n == m
    ensures ToNodes(a) == ToNodes(b)
  {
    ToNodesMembers(a);
    ToNodesMembers(b);
  }

  lemma SyntheticMapsAgree(c: Text, rules: seq<CSIRule>, s: Snapshot)
    requires SeparateDrivers(s)
    ensures ToNodes(SyntheticNodes(c, rules, ObservedDriverIDs(c, s.csiDrivers), s.storageClasses)) ==
            ToNodes(Flat(s.storageClasses, SyntheticF(c, rules, s.csiDrivers)))
  {
    var a := SyntheticNodes(c, rules, ObservedDriverIDs(c, s.csiDrivers), s.storageClasses);
    var b := Flat(s.storageClasses, SyntheticF(c, rules, s.csiDrivers));
    BuildSyntheticFromReconciler(c, rules, s.csiDrivers, s.storageClasses);
    FlatMembers(s.storageClasses, SyntheticF(c, rules, s.csiDrivers));
    hide CSIDriverID, Flat, SyntheticNodes, ObservedDriverIDs, IsCSIProvisioner;
    forall n, m | n in b && m in b && n.id == m.id
      ensures n == m
    {
      var x :| x in s.storageClasses && n in SyntheticF(c, rules, s.csiDrivers)(x);
      var y :| y in s.storageClasses && m in SyntheticF(c, rules, s.csiDrivers)(y);
      DriverIDsDetermineNames(c, s, x.provisioner, "", y.provisioner, "");
    }
    SameMembersSameMap(a, b);
  }

  /** The storage nodes after an update are those of a full rebuild, whatever was there before. */
  lemma StorageNodesMatch(g: Graph, c: Text, rules: seq<CSIRule>, x: Inferred, s: Snapshot, order: seq<string>)
    requires g.Valid() && InferredShape(x) && SeparateDrivers(s)
    ensures OfKind(Reconciled(g, c, rules, s, order).nodes, STORAGE_NODES) == ToNodes(StorageNodes(c, rules, s))
    ensures OfKind(ToNodes(BuildNodes(c, rules, x, s)), STORAGE_NODES) == ToNodes(StorageNodes(c, rules, s))
  {
    UpdatedNodes(g, c, rules, s, order);
    RebuiltNodes(c, rules, x, s);
  }

  lemma UpdatedNodes(g: Graph, c: Text, rules: seq<CSIRule>, s: Snapshot, order: seq<string>)
    requires g.Valid()
    ensures OfKind(Reconciled(g, c, rules, s, order).nodes, STORAGE_NODES) == ToNodes(StorageNodes(c, rules, s))
  {
    var m, ns := StorageMapsOf(c, rules, s), ToNodes(StorageNodes(c, rules, s));
    StorageNodesAreNamed(c, rules, s);
    KeptNodesAreUpserted(c, rules, s);
    ToNodesMembers(StorageNodes(c, rules, s));
    hide StorageNodes, StorageMapsOf, CurrentIDs, ToNodes, Coherent, NamedDriver, RebuiltStorageEdges, KernelDriverNames;
    var cleared := Cleared(g, m);
    forall id | id in cleared.nodes && id !in ns
      ensures cleared.nodes[id].kind !in STORAGE_NODES
    {
    }
  }

  lemma OtherNodesAreNotStorage(c: Text, x: Inferred, s: Snapshot)
    requires InferredShape(x)
    ensures Tagged(ToNodes(NodesBeforeStorage(c, s)), STORAGE_NODES) == map[]
    ensures Tagged(ToNodes(IdentityNodes(c, s)), STORAGE_NODES) == map[]
    ensures Tagged(ToNodes(Flat(s.webhookConfigs, WebhookNodeF(c))), STORAGE_NODES) == map[]
    ensures Tagged(ToNodes(x.helmNodes), STORAGE_NODES) == map[]
    ensures Tagged(ToNodes(Flat(s.events, EventNodeF(c))), STORAGE_NODES) == map[]
  {
    SnapshotNodeKinds(c, s);
    hide NodesIn, ToNodes, Tagged, NodesBeforeStorage, IdentityNodes, Flat, ObservedStorageNodes;
    TaggedNone(NodesBeforeStorage(c, s), {Workload, Pod, Image, NodeKindNode, Service, ConfigMap, Secret}, STORAGE_NODES);
    TaggedNone(IdentityNodes(c, s), {ServiceAccount, RoleBinding, ClusterRoleBinding}, STORAGE_NODES);
    TaggedNone(Flat(s.webhookConfigs, WebhookNodeF(c)), {WebhookConfig}, STORAGE_NODES);
    TaggedNone(x.helmNodes, {HelmRelease, HelmChart}, STORAGE_NODES);
    TaggedNone(Flat(s.events, EventNodeF(c)), {Event}, STORAGE_NODES);
  }

  lemma RebuiltNodes(c: Text, rules: seq<CSIRule>, x: Inferred, s: Snapshot)
    requires InferredShape(x) && SeparateDrivers(s)
    ensures OfKind(ToNodes(BuildNodes(c, rules, x, s)), STORAGE_NODES) == ToNodes(StorageNodes(c, rules, s))
  {
    var observed := ObservedStorageNodes(c, s);
    var synthetic := SyntheticNodes(c, rules, ObservedDriverIDs(c, s.csiDrivers), s.storageClasses);
    SyntheticNodeKinds(c, rules, ObservedDriverIDs(c, s.csiDrivers), s.storageClasses);
    SyntheticMapsAgree(c, rules, s);
    SnapshotNodeKinds(c, s);
    hide NodesIn, ToNodes, Tagged, OfKind, NodesBeforeStorage, IdentityNodes, ObservedStorageNodes, Flat, SyntheticNodes, SyntheticF,
         ObservedDriverIDs, BuildNodes;
    ToNodesAppend(observed, Flat(s.storageClasses, SyntheticF(c, rules, s.csiDrivers)));
    TaggedBuild(c, rules, x, s, STORAGE_NODES);
    BuildNodesAreTagged(c, rules, x, s);
    OtherNodesAreNotStorage(c, x, s);
    TaggedAll(observed, STORAGE_NODES, STORAGE_NODES);
    TaggedAll(synthetic, {CSIDriver}, STORAGE_NODES);
    EmptyIsNeutral<CanonicalID, Node>();
  }

  lemma BuildNodesAreTagged(c: Text, rules: seq<CSIRule>, x: Inferred, s: Snapshot)
    requires InferredShape(x)
    ensures forall kinds :: OfKind(ToNodes(BuildNodes(c, rules, x, s)), kinds) == Tagged(ToNodes(BuildNodes(c, rules, x, s)), kinds)
  {
    BuildNodesAreNamed(c, rules, x, s);
    hide BuildNodes, NamedDriver, Coherent;
    var all := set n | n in BuildNodes(c, rules, x, s) :: n.kind;
    forall kinds { TaggedIsOfKind(BuildNodes(c, rules, x, s), all, kinds); }
  }

  // ---- Edges ----

  /** Where the contributions do not overlap, each keeps its edges whatever the order. */
  lemma {:induction false} DisjointFlat<A>(xs: seq<A>, f: A -> seq<Edge>)
    requires Distinct(xs)
    requires forall x, y | x in xs && y in xs && x != y :: ToEdges(f(x)).Keys !! ToEdges(f(y)).Keys
    ensures forall k :: k in ToEdges(Flat(xs, f)) <==> exists x | x in xs :: k in ToEdges(f(x))
    ensures forall x, k | x in xs && k in ToEdges(f(x)) :: k in ToEdges(Flat(xs, f)) && ToEdges(Flat(xs, f))[k] == ToEdges(f(x))[k]
  {
    if xs != [] {
      var init, last := xs[..|xs| - 1], xs[|xs| - 1];
      assert xs == init + [last] && last !in init;
      DisjointFlat(init, f);
      ToEdgesAppend(Flat(init, f), f(last));
      hide ToEdges;
    }
  }

  lemma DisjointFlatForgetsOrder<A>(xs: seq<A>, ys: seq<A>, f: A -> seq<Edge>)
    requires Distinct(xs) && Distinct(ys) && forall x :: x in xs <==> x in ys
    requires forall x, y | x in xs && y in xs && x != y :: ToEdges(f(x)).Keys !! ToEdges(f(y)).Keys
    ensures ToEdges(Flat(xs, f)) == ToEdges(Flat(ys, f))
  {
    DisjointFlat(xs, f);
    DisjointFlat(ys, f);
    hide ToEdges, Flat;
  }

  /** The map order of the drivers does not matter: each driver's edges leave its own node. */
  lemma DriverOrderIsIrrelevant(c: Text, rules: seq<CSIRule>, s: Snapshot, infraPods: seq<Node>, names: map<string, string>,
                                order1: seq<string>, order2: seq<string>)
    requires SeparateDrivers(s)
    requires IsEnumeration(order1, CSIDriverIDs(c, rules, s)) && IsEnumeration(order2, CSIDriverIDs(c, rules, s))
    ensures var f := DriverEdgesF(StorageMapsOf(c, rules, s), rules, infraPods, names);
            ToEdges(Flat(order1, f)) == ToEdges(Flat(order2, f))
  {
    var m := StorageMapsOf(c, rules, s);
    var f := DriverEdgesF(m, rules, infraPods, names);
    hide Flat, InferCSIComponentEdges, CSIDriverIDs, PVCIDs, PVIDs, StorageClassIDs, ToEdges;
    forall d, e | d in order1 && e in order1 && d != e
      ensures ToEdges(f(d)).Keys !! ToEdges(f(e)).Keys
    {
      if m.drivers[d] == m.drivers[e] { DriverIDsAreInjective(c, rules, s, d, e); }
      if d in names { DriverEdgeKinds(m.drivers[d], names[d], infraPods, rules); }
      if e in names { DriverEdgeKinds(m.drivers[e], names[e], infraPods, rules); }
      ToEdgesMembers(f(d));
      ToEdgesMembers(f(e));
    }
    DisjointFlatForgetsOrder(order1, order2, f);
  }

  lemma DriverIDsAreInjective(c: Text, rules: seq<CSIRule>, s: Snapshot, d: string, e: string)
    requires SeparateDrivers(s) && d in CSIDriverIDs(c, rules, s) && e in CSIDriverIDs(c, rules, s)
    requires CSIDriverIDs(c, rules, s)[d] == CSIDriverIDs(c, rules, s)[e]
    ensures d == e
  {
    DriversAreNodes(c, rules, s, d);
    var n :| n in StorageNodes(c, rules, s) && n.id == CSIDriverIDs(c, rules, s)[d] && n.kind == CSIDriver && n.name == d;
    StorageNodesAreNamed(c, rules, s);
    hide StorageNodes, CSIDriverIDs, NamedDriver;
    NodeAtDriverIsNamed(c, rules, s, e, n);
  }

  lemma UpsertedAreStorage(c: Text, rules: seq<CSIRule>, s: Snapshot, m: StorageMaps, order: seq<string>, names: map<string, string>)
    ensures EdgesIn(RebuiltStorageEdges(c, rules, s, m, order, names), {MountsPVC} + STORAGE_EDGES)
  {
    FlatEdgesIn(s.pods, MountF(c, m.pvcs), {MountsPVC});
    StorageEdgeKinds(m, rules, s, Flat(s.pods, PodNodeF(c)), order, names);
    hide Flat, StorageEdges;
  }

  /** After an update the storage edges are exactly the ones it upserted. */
  lemma UpdatedEdges(g: Graph, c: Text, rules: seq<CSIRule>, s: Snapshot, order: seq<string>)
    ensures var m, r := StorageMapsOf(c, rules, s), Reconciled(g, c, rules, s, order);
            Only(r.edges, StorageKey()) == ToEdges(RebuiltStorageEdges(c, rules, s, m, order, KernelDriverNames(m.drivers, r.nodes)))
  {
    hide StorageMapsOf, RebuiltStorageEdges, KernelDriverNames, StorageNodes, ToEdges, ToNodes, CurrentIDs, Doomed;
    var m, r := StorageMapsOf(c, rules, s), Reconciled(g, c, rules, s, order);
    var names := KernelDriverNames(m.drivers, r.nodes);
    var es := RebuiltStorageEdges(c, rules, s, m, order, names);
    assert Only(Cleared(g, m).edges, StorageKey()) == map[];
    hide Cleared;
    OnlyUnion(Cleared(g, m).edges, ToEdges(es), StorageKey());
    UpsertedAreStorage(c, rules, s, m, order, names);
    OnlyOfKinds(es, {MountsPVC} + STORAGE_EDGES, StorageKey());
    assert map[] + ToEdges(es) == ToEdges(es);
  }

  lemma OtherPassesAreNotStorage(c: Text, x: Inferred, s: Snapshot, evidence: seq<Edge>)
    requires InferredShape(x) && EdgesIn(evidence, {AffectedByWebhook})
    ensures Only(ToEdges(Flat(s.pods, ImageEdgesF(c))), StorageKey()) == map[]
    ensures Only(ToEdges(x.helmEdges), StorageKey()) == map[]
    ensures Only(ToEdges(Flat(s.events, EventEdgesF(c, s))), StorageKey()) == map[]
    ensures Only(ToEdges(Flat(s.roleBindings, RoleBindingEdgesF(c, s))), StorageKey()) == map[]
    ensures Only(ToEdges(Flat(s.clusterRoleBindings, ClusterRoleBindingEdgesF(c, s))), StorageKey()) == map[]
    ensures Only(ToEdges(Flat(s.workloads, WorkloadEdgesF(c, s))), StorageKey()) == map[]
    ensures Only(ToEdges(x.controllerEdges), StorageKey()) == map[]
    ensures Only(ToEdges(Flat(s.services, ServiceEdgesF(c, s))), StorageKey()) == map[]
    ensures Only(ToEdges(evidence), StorageKey()) == map[]
  {
    PassKinds(c, s);
    hide Flat, ToEdges, Only, EdgesIn, ImageEdgesF, EventEdgesF, PodEdgesF, RoleBindingEdgesF, ClusterRoleBindingEdgesF, WorkloadEdgesF,
         ServiceEdgesF;
    OnlyNoKind(Flat(s.pods, ImageEdgesF(c)), {UsesImage}, StorageKey());
    OnlyNoKind(x.helmEdges, HELM_EDGES, StorageKey());
    OnlyNoKind(Flat(s.events, EventEdgesF(c, s)), {ReportedByEvent}, StorageKey());
    OnlyNoKind(Flat(s.roleBindings, RoleBindingEdgesF(c, s)), {BoundByRoleBinding}, StorageKey());
    OnlyNoKind(Flat(s.clusterRoleBindings, ClusterRoleBindingEdgesF(c, s)), {BoundByRoleBinding}, StorageKey());
    OnlyNoKind(Flat(s.workloads, WorkloadEdgesF(c, s)), {ControlledBy}, StorageKey());
    OnlyNoKind(x.controllerEdges, CONTROLLER_EDGES, StorageKey());
    OnlyNoKind(Flat(s.services, ServiceEdgesF(c, s)), {SelectsPod}, StorageKey());
    OnlyNoKind(evidence, {AffectedByWebhook}, StorageKey());
  }

  /** Of a full rebuild's edges the storage part is the mounts and the storage passes. */
  lemma RebuiltEdges(c: Text, rules: seq<CSIRule>, x: Inferred, s: Snapshot, order: seq<string>, evidence: seq<Edge>)
    requires InferredShape(x) && UniquePods(c, s.pods)
    requires EdgesIn(evidence, {AffectedByWebhook})
    ensures var m := StorageMapsOf(c, rules, s);
            Only(Rebuilt(c, rules, x, s, order, evidence).edges, StorageKey()) ==
              ToEdges(Flat(s.pods, MountF(c, m.pvcs)))
              + ToEdges(StorageEdges(m, rules, s, Flat(s.pods, PodNodeF(c)), order, BuildDriverNames(c, rules, x, s)))
  {
    hide StorageMapsOf, Flat, StorageEdges, BuildDriverNames, BuildNodes, PodsAmong, Rebuilt, ToEdges, Only, EdgesIn, UniquePods, InferredShape,
         ImageEdgesF, EventEdgesF, PodEdgesF, RoleBindingEdgesF, ClusterRoleBindingEdgesF, WorkloadEdgesF, ServiceEdgesF, MountF, PodNodeF;
    var m, p := StorageMapsOf(c, rules, s), StorageKey();
    var names := BuildDriverNames(c, rules, x, s);
    var storage := StorageEdges(m, rules, s, Flat(s.pods, PodNodeF(c)), order, names);
    InfraPodsAreThePods(c, rules, x, s);
    OnlyRebuilt(c, rules, x, s, order, evidence, p);
    StorageEdgeKinds(m, rules, s, Flat(s.pods, PodNodeF(c)), order, names);
    OtherPassesAreNotStorage(c, x, s, evidence);
    MountsOfRebuild(c, rules, s);
    OnlyOfKinds(storage, STORAGE_EDGES, p);
    var a, b := ToEdges(Flat(s.pods, MountF(c, m.pvcs))), ToEdges(storage);
    assert map[] + map[] + map[] + a + map[] + map[] + map[] + map[] + b + map[] + map[] == a + b by { EmptyIsNeutral<EdgeKey, Edge>(); }
  }

  /** The update's list of edges as a map, in terms of any other order of the drivers. */
  lemma UpdateInAnyOrder(c: Text, rules: seq<CSIRule>, s: Snapshot, order1: seq<string>, order2: seq<string>, names: map<string, string>)
    requires SeparateDrivers(s)
    requires IsEnumeration(order1, CSIDriverIDs(c, rules, s)) && IsEnumeration(order2, CSIDriverIDs(c, rules, s))
    ensures var m, infraPods := StorageMapsOf(c, rules, s), Flat(s.pods, PodNodeF(c));
            ToEdges(RebuiltStorageEdges(c, rules, s, m, order1, names)) ==
              ToEdges(Flat(s.pods, MountF(c, m.pvcs))) + ToEdges(StorageEdges(m, rules, s, infraPods, order2, names))
  {
    var m, infraPods := StorageMapsOf(c, rules, s), Flat(s.pods, PodNodeF(c));
    var f := DriverEdgesF(m, rules, infraPods, names);
    DriverOrderIsIrrelevant(c, rules, s, infraPods, names, order1, order2);
    hide StorageMapsOf, Flat, ToEdges, DriverEdgesF, PVCEdgesF, PVEdgesF, StorageClassEdgesF, PVComponentEdgesF, MountF, SeparateDrivers,
         IsEnumeration;
    var base := Flat(s.pvcs, PVCEdgesF(m, s)) + Flat(s.pvs, PVEdgesF(m)) + Flat(s.storageClasses, StorageClassEdgesF(m))
              + Flat(s.pvs, PVComponentEdgesF(m, rules, s, infraPods));
    ToEdgesAppend(base, Flat(order1, f));
    ToEdgesAppend(base, Flat(order2, f));
    ToEdgesAppend(Flat(s.pods, MountF(c, m.pvcs)), StorageEdges(m, rules, s, infraPods, order1, names));
  }

  lemma OnlyOfKinds(es: seq<Edge>, kinds: set<EdgeKind>, p: EdgeKey -> bool)
    requires EdgesIn(es, kinds) && forall k: EdgeKey | k.kind in kinds :: p(k)
    ensures Only(ToEdges(es), p) == ToEdges(es)
  {
    OnlyAll(es, p);
  }

  /** The pod pass contributes exactly the mounts, under the pods' own identifiers. */
  lemma MountsOfRebuild(c: Text, rules: seq<CSIRule>, s: Snapshot)
    requires UniquePods(c, s.pods)
    ensures Only(ToEdges(Flat(s.pods, PodEdgesF(c, s))), StorageKey()) ==
            ToEdges(Flat(s.pods, MountF(c, StorageMapsOf(c, rules, s).pvcs)))
  {
    var m, ids := PodMapsOf(c, s), PodIDs(c, s.pods);
    var h := MountF(c, PVCIDs(c, s.pvcs));
    forall pod | pod in s.pods
      ensures Only(ToEdges(PodEdgesF(c, s)(pod)), StorageKey()) == ToEdges(h(pod))
    {
      UniquePodsAreListed(c, s.pods, pod);
      MountsOfPod(m, PodID(c, pod), pod);
    }
    hide PodMapsOf, PodIDs, PodID, PVCIDs, Only, ToEdges;
    OnlyFlat(s.pods, PodEdgesF(c, s), StorageKey(), h);
  }

  lemma MountsOfPod(m: PodMaps, id: CanonicalID, pod: KubePod)
    ensures Only(ToEdges(PodEdges(m, id, pod)), StorageKey()) == ToEdges(RefEdges(id, MountsPVC, pod.meta.namespace, pod.pvcRefs, m.pvcs))
  {
    hide PodTargets, ToEdges, Only, PodEdges, RefEdges, OwnerEdges;
    OnlyPodEdges(m, id, pod, StorageKey());
    OnlyNone(ScheduledEdges(id, pod, m.nodes), StorageKey());
    OnlyNone(RefEdges(id, UsesConfigMap, pod.meta.namespace, pod.configMapRefs, m.configMaps), StorageKey());
    OnlyNone(RefEdges(id, UsesSecret, pod.meta.namespace, pod.secretRefs, m.secrets), StorageKey());
    OnlyAll(RefEdges(id, MountsPVC, pod.meta.namespace, pod.pvcRefs, m.pvcs), StorageKey());
    OnlyNone(ServiceAccountEdges(id, pod, m.accounts), StorageKey());
    OnlyNone(OwnerEdges(id, PodTargets(m, pod)), StorageKey());
    EmptyIsNeutral<EdgeKey, Edge>();
  }

  /** Narrow equals full on storage: from any prior state, for any map order on either side, an update leaves the same
      storage nodes and the same storage edges, resolvers included, as a full rebuild of the snapshot. */
  lemma StorageUpdateMatchesRebuild(g: Graph, c: Text, rules: seq<CSIRule>, x: Inferred, s: Snapshot,
                                    order1: seq<string>, order2: seq<string>, evidence: seq<Edge>)
    requires g.Valid() && InferredShape(x) && UniquePods(c, s.pods) && SeparateDrivers(s)
    requires IsEnumeration(order1, CSIDriverIDs(c, rules, s)) && IsEnumeration(order2, CSIDriverIDs(c, rules, s))
    requires EdgesIn(evidence, {AffectedByWebhook})
    ensures var narrow, full := Reconciled(g, c, rules, s, order1), Rebuilt(c, rules, x, s, order2, evidence);
            && OfKind(narrow.nodes, STORAGE_NODES) == OfKind(full.nodes, STORAGE_NODES)
            && Only(narrow.edges, StorageKey()) == Only(full.edges, StorageKey())
  {
    var narrow := Reconciled(g, c, rules, s, order1);
    var m := StorageMapsOf(c, rules, s);
    StorageNodesMatch(g, c, rules, x, s, order1);
    RebuiltNodesOf(c, rules, x, s, order2, evidence);
    UpdatedEdges(g, c, rules, s, order1);
    RebuiltEdges(c, rules, x, s, order2, evidence);
    UpdatedNames(g, c, rules, x, s, order1);
    UpdateInAnyOrder(c, rules, s, order1, order2, KernelDriverNames(m.drivers, narrow.nodes));
    hide StorageMapsOf, Flat, StorageEdges, RebuiltStorageEdges, BuildDriverNames, BuildNodes, Rebuilt, ToEdges, Only, Reconciled,
         KernelDriverNames, MountF, OfKind;
  }

  lemma RebuiltNodesOf(c: Text, rules: seq<CSIRule>, x: Inferred, s: Snapshot, order: seq<string>, evidence: seq<Edge>)
    ensures Rebuilt(c, rules, x, s, order, evidence).nodes == ToNodes(BuildNodes(c, rules, x, s))
  {
    hide ToNodes, BuildNodes, BuildEdges, ToEdges;
  }

  lemma UpdatedNames(g: Graph, c: Text, rules: seq<CSIRule>, x: Inferred, s: Snapshot, order: seq<string>)
    requires InferredShape(x) && SeparateDrivers(s)
    ensures BuildDriverNames(c, rules, x, s) ==
            KernelDriverNames(StorageMapsOf(c, rules, s).drivers, Reconciled(g, c, rules, s, order).nodes)
  {
    hide BuildDriverNames, StorageNodes, RebuiltStorageEdges, KernelDriverNames, Cleared, ToNodes, ToEdges, CSIDriverIDs;
    DriverNamesAgree(c, rules, x, s, Cleared(g, StorageMapsOf(c, rules, s)).nodes);
  }

  // ---- What an update leaves alone ----

  /** Edges of other kinds change only where they touch a removed stale node. */
  lemma OtherEdgesSurvive(g: Graph, c: Text, rules: seq<CSIRule>, s: Snapshot, order: seq<string>, k: EdgeKey)
    requires g.Valid() && !IsStorageEdge(k.kind)
    ensures var r, current := Reconciled(g, c, rules, s, order), CurrentIDs(StorageMapsOf(c, rules, s));
            var gone := set id | id in g.nodes && g.nodes[id].kind in {PVC, PV, StorageClass, CSIDriver} && g.nodes[id].id !in current;
            && (k in r.edges <==> k in g.edges && k.from !in gone && k.to !in gone)
            && (k in r.edges ==> r.edges[k] == g.edges[k])
  {
    hide StorageMapsOf, RebuiltStorageEdges, KernelDriverNames, StorageNodes, CurrentIDs;
    var m, r := StorageMapsOf(c, rules, s), Reconciled(g, c, rules, s, order);
    var es := RebuiltStorageEdges(c, rules, s, m, order, KernelDriverNames(m.drivers, r.nodes));
    UpsertedAreStorage(c, rules, s, m, order, KernelDriverNames(m.drivers, r.nodes));
    ToEdgesMembers(es);
    hide ToEdges, ToNodes;
    assert Doomed(g.WithoutEdges(StorageKey()), StaleStorage(CurrentIDs(m))) == Doomed(g, StaleStorage(CurrentIDs(m)));
    assert Doomed(g, StaleStorage(CurrentIDs(m))) ==
      set id | id in g.nodes && g.nodes[id].kind in {PVC, PV, StorageClass, CSIDriver} && g.nodes[id].id !in CurrentIDs(m);
  }
}
