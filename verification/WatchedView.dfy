/** What the polling stream watches: exactly this view of a snapshot, up to order, decides its fingerprints. */
module WatchedView {
  import opened Identity
  import opened Strings
  import opened GraphModel
  import opened Resources
  import opened OwnerChain
  import opened SnapshotOrder
  import opened Fingerprints
  import opened ObjectReading
  import opened WatchedPieces

  function WatchedPVCF(): KubePVC -> seq<KubePVC> { (p: KubePVC) => [WatchedPVC(p)] }
  function WatchedPVF(): KubePV -> seq<KubePV> { (p: KubePV) => [WatchedPV(p)] }
  function WatchedClassF(): KubeStorageClass -> seq<KubeStorageClass> { (x: KubeStorageClass) => [WatchedClass(x)] }
  function WatchedDriverF(): KubeNamed -> seq<KubeNamed> { (d: KubeNamed) => [WatchedDriver(d)] }
  function WatchedEventF(): KubeEvent -> seq<KubeEvent> { (e: KubeEvent) => [WatchedEvent(e)] }
  function WatchedAccountF(): KubeNamed -> seq<KubeNamed> { (a: KubeNamed) => [WatchedAccount(a)] }
  function WatchedRoleBindingF(): KubeBinding -> seq<KubeBinding> { (b: KubeBinding) => [WatchedRoleBinding(b)] }
  function WatchedClusterRoleBindingF(): KubeBinding -> seq<KubeBinding> { (b: KubeBinding) => [WatchedClusterRoleBinding(b)] }

  /** The snapshot without what no fingerprint reads. */
  function Watched(s: Snapshot): Snapshot {
    s.(nodes := [], configMaps := [], secrets := [], webhookConfigs := [],
       pvcs := Flat(s.pvcs, WatchedPVCF()), pvs := Flat(s.pvs, WatchedPVF()),
       storageClasses := Flat(s.storageClasses, WatchedClassF()), csiDrivers := Flat(s.csiDrivers, WatchedDriverF()),
       events := Flat(s.events, WatchedEventF()), serviceAccounts := Flat(s.serviceAccounts, WatchedAccountF()),
       roleBindings := Flat(s.roleBindings, WatchedRoleBindingF()),
       clusterRoleBindings := Flat(s.clusterRoleBindings, WatchedClusterRoleBindingF()))
  }

  // ---- The view decides the fingerprints ----

  lemma StorageIsWatched(s: Snapshot)
    ensures StorageRefs(Watched(s)) == StorageRefs(s)
  {
    hide Flat, PVCFingerprint, PVFingerprint, StorageClassFingerprint, CSIDriverFingerprint;
    forall p
      ensures Flat(WatchedPVCF()(p), PVCRefF()) == PVCRefF()(p)
    {
      OneFlat(WatchedPVC(p), PVCRefF());
      assert PVCFingerprint(WatchedPVC(p)) == PVCFingerprint(p) by { SamePVCText(p); }
    }
    forall p
      ensures Flat(WatchedPVF()(p), PVRefF()) == PVRefF()(p)
    {
      OneFlat(WatchedPV(p), PVRefF());
      assert PVFingerprint(WatchedPV(p)) == PVFingerprint(p) by { SamePVText(p); }
    }
    ClassesAreWatched();
    FlatOfFlat(s.pvcs, WatchedPVCF(), PVCRefF(), PVCRefF());
    FlatOfFlat(s.pvs, WatchedPVF(), PVRefF(), PVRefF());
    FlatOfFlat(s.storageClasses, WatchedClassF(), StorageClassRefF(), StorageClassRefF());
    FlatOfFlat(s.csiDrivers, WatchedDriverF(), CSIDriverRefF(), CSIDriverRefF());
  }

  lemma SamePVCText(p: KubePVC)
    ensures PVCFingerprint(WatchedPVC(p)) == PVCFingerprint(p)
  {
    hide Join;
  }

  lemma SamePVText(p: KubePV)
    ensures PVFingerprint(WatchedPV(p)) == PVFingerprint(p)
  {
    hide Join, StringMapFingerprint;
  }

  lemma ClassesAreWatched()
    ensures forall x :: Flat(WatchedClassF()(x), StorageClassRefF()) == StorageClassRefF()(x)
    ensures forall d :: Flat(WatchedDriverF()(d), CSIDriverRefF()) == CSIDriverRefF()(d)
  {
    hide Flat, Join;
    forall x { OneFlat(WatchedClass(x), StorageClassRefF()); }
    forall d { OneFlat(WatchedDriver(d), CSIDriverRefF()); }
  }

  lemma EventsAreWatched(s: Snapshot)
    ensures Flat(Watched(s).events, EventRefF()) == Flat(s.events, EventRefF())
  {
    hide Flat, Join;
    forall e
      ensures Flat(WatchedEventF()(e), EventRefF()) == EventRefF()(e)
    {
      OneFlat(WatchedEvent(e), EventRefF());
    }
    FlatOfFlat(s.events, WatchedEventF(), EventRefF(), EventRefF());
  }

  lemma BindingsAreWatched()
    ensures forall b :: Flat(WatchedRoleBindingF()(b), RoleBindingRefF()) == RoleBindingRefF()(b)
    ensures forall b :: Flat(WatchedClusterRoleBindingF()(b), ClusterRoleBindingRefF()) == ClusterRoleBindingRefF()(b)
  {
    hide Flat, Join, SubjectFingerprint;
    forall b
      ensures Flat(WatchedRoleBindingF()(b), RoleBindingRefF()) == RoleBindingRefF()(b)
      ensures Flat(WatchedClusterRoleBindingF()(b), ClusterRoleBindingRefF()) == ClusterRoleBindingRefF()(b)
    {
      SameSubjects(b);
      OneFlat(WatchedRoleBinding(b), RoleBindingRefF());
      OneFlat(WatchedClusterRoleBinding(b), ClusterRoleBindingRefF());
    }
  }

  lemma SameSubjects(b: KubeBinding)
    ensures Subjects(WatchedRoleBinding(b)) == Subjects(b) == Subjects(WatchedClusterRoleBinding(b))
    ensures SubjectFingerprint(WatchedRoleBinding(b)) == SubjectFingerprint(b) == SubjectFingerprint(WatchedClusterRoleBinding(b))
  {
    hide SortedJoin, Flat;
    assert Subjects(WatchedRoleBinding(b)) == Subjects(b);
    assert Subjects(WatchedClusterRoleBinding(b)) == Subjects(b);
  }

  lemma IdentitiesAreWatched(s: Snapshot)
    ensures IdentityRefs(Watched(s)) == IdentityRefs(s)
  {
    hide Flat, Join;
    forall a
      ensures Flat(WatchedAccountF()(a), ServiceAccountRefF()) == ServiceAccountRefF()(a)
    {
      OneFlat(WatchedAccount(a), ServiceAccountRefF());
    }
    BindingsAreWatched();
    hide WatchedRoleBindingF, WatchedClusterRoleBindingF, RoleBindingRefF, ClusterRoleBindingRefF, ServiceAccountRefF, WatchedAccountF;
    FlatOfFlat(s.serviceAccounts, WatchedAccountF(), ServiceAccountRefF(), ServiceAccountRefF());
    FlatOfFlat(s.roleBindings, WatchedRoleBindingF(), RoleBindingRefF(), RoleBindingRefF());
    FlatOfFlat(s.clusterRoleBindings, WatchedClusterRoleBindingF(), ClusterRoleBindingRefF(), ClusterRoleBindingRefF());
  }

  lemma ViewHasTheRefs(s: Snapshot, c: Category)
    ensures RefsOf(Watched(s), c) == RefsOf(s, c)
  {
    StorageIsWatched(s);
    EventsAreWatched(s);
    IdentitiesAreWatched(s);
    hide Flat, GroupedRefs, StorageRefs, IdentityRefs, ReplicaSetPartF, WorkloadPartF, NewChainResolver;
    match c
    case Workloads =>
    case Pods =>
    case Services =>
    case Storage =>
    case Events =>
    case Identities =>
  }

  lemma ViewHasTheText(s: Snapshot)
    ensures forall c :: Joined(Watched(s), c) == Joined(s, c)
    ensures TotalInput(Watched(s)) == TotalInput(s)
  {
    forall c { ViewHasTheRefs(s, c); }
    hide RefsOf, Watched, SortedJoin, Flat;
    assert forall c :: Joined(Watched(s), c) == Joined(s, c);
    hide Joined;
    SameFlat(CATEGORIES, CategoryInputF(Watched(s)), CategoryInputF(s));
  }

  /** Changes to what is not watched leave every fingerprint alone. */
  lemma UnwatchedGoesUnnoticed(a: Snapshot, b: Snapshot)
    requires Watched(a) == Watched(b)
    ensures forall c :: Joined(a, c) == Joined(b, c)
    ensures TotalInput(a) == TotalInput(b)
  {
    hide Watched, Joined, TotalInput;
    ViewHasTheText(a);
    ViewHasTheText(b);
  }

  /** For instance, an event that comes to be about another object of the same name: the builder would report on another node. */
  lemma InvolvedUIDGoesUnnoticed(s: Snapshot, e: KubeEvent, uid: Text)
    ensures TotalInput(s.(events := [e])) == TotalInput(s.(events := [e.(involvedUID := uid)]))
  {
    hide Flat, TotalInput, Joined;
    OneFlat(e, WatchedEventF());
    OneFlat(e.(involvedUID := uid), WatchedEventF());
    UnwatchedGoesUnnoticed(s.(events := [e]), s.(events := [e.(involvedUID := uid)]));
  }

  /** Views alike but for order give the same fingerprints. */
  lemma AlikeViewsAgree(a: Snapshot, b: Snapshot)
    requires SameButOrder(Watched(a), Watched(b)) && DistinctOwners(OwnersOf(a)) && DistinctOwners(OwnersOf(b))
    ensures forall c :: Joined(a, c) == Joined(b, c)
    ensures TotalInput(a) == TotalInput(b)
  {
    ViewHasTheText(a);
    ViewHasTheText(b);
    assert OwnersOf(Watched(a)) == OwnersOf(a) && OwnersOf(Watched(b)) == OwnersOf(b);
    hide Watched, Joined, TotalInput, SameButOrder, OwnersOf, DistinctOwners;
    FingerprintsForgetOrder(Watched(a), Watched(b));
  }
}
