/** Reading a snapshot's watched view back from its fingerprints, on fields free of the separators. */
module WatchedReading {
  import opened Strings
  import opened GraphModel
  import opened Resources
  import opened SnapshotOrder
  import opened Fingerprints
  import opened Splitting
  import opened MapReading
  import opened FingerprintReading
  import opened ObjectReading
  import opened WatchedPieces
  import opened WatchedView

  /** Everything watched is free of the separators that would hide where it ends. */
  ghost predicate Readable(s: Snapshot) {
    && (forall w | w in s.workloads :: ReadableWorkload(w)) && (forall x | x in s.replicaSets :: ReadableReplicaSet(x))
    && (forall p | p in s.pods :: ReadablePod(p)) && (forall v | v in s.services :: ReadableService(v))
    && (forall p | p in s.pvcs :: ReadablePVC(p)) && (forall p | p in s.pvs :: ReadablePV(p))
    && (forall x | x in s.storageClasses :: ReadableClass(x)) && (forall d | d in s.csiDrivers :: ReadableDriver(d))
    && (forall e | e in s.events :: ReadableEvent(e)) && (forall a | a in s.serviceAccounts :: ReadableMeta(a.meta))
    && (forall b | b in s.roleBindings :: ReadableBinding(b) && Clean(b.meta.namespace))
    && forall b | b in s.clusterRoleBindings :: ReadableBinding(b)
  }

  // ---- No fingerprint is split or dropped ----

  predicate Sound(s: string) { Whole(s, '|') && Fit(s) }

  lemma JoinIsSound(parts: seq<string>)
    requires |parts| >= 2 && forall p | p in parts :: Fit(p)
    ensures Sound(Join(parts, "/"))
  {
    FitJoin(parts, "/");
    assert Join(parts, "/") == parts[0] + "/" + Join(parts[1..], "/");
  }

  lemma WorkloadIsSound(w: KubeWorkload)
    requires ReadableWorkload(w)
    ensures Sound(WorkloadFingerprint(w))
  {
    FitMap(w.meta.labels);
    FitMap(w.conditions);
    FitOwners(w.ownerReferences);
    DecimalsAreClean(w.replicas);
    hide Join, StringMapFingerprint, OwnerReferenceFingerprint, Decimal, Sound, LabelMap;
    JoinIsSound([w.meta.namespace, w.apiVersion, w.controllerKind, w.meta.name, w.meta.uid, Decimal(w.replicas),
                 StringMapFingerprint(w.meta.labels), StringMapFingerprint(w.conditions), OwnerReferenceFingerprint(w.ownerReferences)]);
  }

  lemma ReplicaSetIsSound(x: KubeReplicaSet)
    requires ReadableReplicaSet(x)
    ensures Sound(ReplicaSetFingerprint(x))
  {
    FitMap(x.meta.labels);
    FitMap(x.conditions);
    FitOwners(x.ownerReferences);
    DecimalsAreClean(x.replicas);
    hide Join, StringMapFingerprint, OwnerReferenceFingerprint, Decimal, Sound, LabelMap;
    JoinIsSound(["replicaset", x.meta.namespace, x.meta.name, x.meta.uid, Decimal(x.replicas),
                 StringMapFingerprint(x.meta.labels), StringMapFingerprint(x.conditions), OwnerReferenceFingerprint(x.ownerReferences)]);
  }

  lemma PodIsSound(p: KubePod)
    requires ReadablePod(p)
    ensures Sound(PodFingerprint(p))
  {
    FitMap(p.meta.labels);
    FitOwners(p.ownerReferences);
    FitSortedJoin(p.containerImages, ",");
    NamesAreSlashless(p.configMapRefs);
    NamesAreSlashless(p.secretRefs);
    NamesAreSlashless(p.pvcRefs);
    hide Join, SortedJoin, StringMapFingerprint, OwnerReferenceFingerprint, Sound, LabelMap, ReadableImage, ReadableName;
    JoinIsSound([p.meta.namespace, p.meta.name, p.meta.uid, p.nodeName, p.serviceAccount, p.phase, p.reason,
                 StringMapFingerprint(p.meta.labels), OwnerReferenceFingerprint(p.ownerReferences), StringSliceFingerprint(p.containerImages),
                 StringSliceFingerprint(p.configMapRefs), StringSliceFingerprint(p.secretRefs), StringSliceFingerprint(p.pvcRefs)]);
  }

  lemma ServiceIsSound(v: KubeService)
    requires ReadableService(v)
    ensures Sound(ServiceFingerprint(v))
  {
    FitMap(v.meta.labels);
    FitMap(v.selector);
    hide Join, StringMapFingerprint, Sound, LabelMap;
    JoinIsSound([v.meta.namespace, v.meta.name, v.meta.uid, StringMapFingerprint(v.meta.labels), StringMapFingerprint(v.selector)]);
  }

  /** The first field, which tells kinds of objects in one category apart. */
  function Tag(s: string): string { Head(s, '/') }

  lemma TagOfJoin(parts: seq<string>)
    requires |parts| >= 2 && '/' !in parts[0]
    ensures Tag(Join(parts, "/")) == parts[0]
  {
    HeadStops(parts[0], Join(parts[1..], "/"), '/');
  }

  lemma StorageIsSound()
    ensures forall p | ReadablePVC(p) :: Sound(PVCFingerprint(p)) && Tag(PVCFingerprint(p)) == "pvc"
    ensures forall p | ReadablePV(p) :: Sound(PVFingerprint(p)) && Tag(PVFingerprint(p)) == "pv"
  {
    hide Join, StringMapFingerprint, Sound, Tag, Fit, ReadableMap;
    forall p | ReadablePVC(p)
      ensures Sound(PVCFingerprint(p)) && Tag(PVCFingerprint(p)) == "pvc"
    {
      FitLiterals();
      var parts := ["pvc", p.meta.namespace, p.meta.name, p.meta.uid, p.volumeName, p.storageClassName, p.status];
      JoinIsSound(parts);
      TagOfJoin(parts);
    }
    forall p | ReadablePV(p)
      ensures Sound(PVFingerprint(p)) && Tag(PVFingerprint(p)) == "pv"
    {
      FitLiterals();
      FitMap(p.csi);
      var parts := ["pv", p.meta.name, p.meta.uid, p.storageClassName, p.status, StringMapFingerprint(p.csi)];
      JoinIsSound(parts);
      TagOfJoin(parts);
    }
  }

  lemma FitLiterals()
    ensures Fit("pvc") && Fit("pv") && Fit("storageclass") && Fit("csidriver") && Fit("sa") && Fit("rb") && Fit("crb")
  {
  }

  lemma ClassesAreSound()
    ensures forall x | ReadableClass(x) :: Sound(StorageClassFingerprint(x)) && Tag(StorageClassFingerprint(x)) == "storageclass"
    ensures forall d | ReadableDriver(d) :: Sound(CSIDriverFingerprint(d)) && Tag(CSIDriverFingerprint(d)) == "csidriver"
  {
    hide Join, Sound, Tag, Fit;
    FitLiterals();
    forall x | ReadableClass(x)
      ensures Sound(StorageClassFingerprint(x)) && Tag(StorageClassFingerprint(x)) == "storageclass"
    {
      var parts := ["storageclass", x.meta.name, x.meta.uid, x.provisioner, x.reclaimPolicy, x.volumeBindingMode];
      JoinIsSound(parts);
      TagOfJoin(parts);
    }
    forall d | ReadableDriver(d)
      ensures Sound(CSIDriverFingerprint(d)) && Tag(CSIDriverFingerprint(d)) == "csidriver"
    {
      var parts := ["csidriver", d.meta.name, d.meta.uid];
      JoinIsSound(parts);
      TagOfJoin(parts);
    }
  }

  lemma EventIsSound(e: KubeEvent)
    requires ReadableEvent(e)
    ensures Sound(EventFingerprint(e))
  {
    hide Join, Sound, Fit;
    JoinIsSound([e.meta.namespace, e.meta.name, e.meta.uid, e.involvedKind, e.involvedName, e.reason, e.message]);
  }

  lemma AccountsAreSound()
    ensures forall a: KubeNamed | ReadableMeta(a.meta) :: Sound(ServiceAccountFingerprint(a)) && Tag(ServiceAccountFingerprint(a)) == "sa"
  {
    hide Join, Sound, Tag, Fit;
    FitLiterals();
    forall a: KubeNamed | ReadableMeta(a.meta)
      ensures Sound(ServiceAccountFingerprint(a)) && Tag(ServiceAccountFingerprint(a)) == "sa"
    {
      var parts := ["sa", a.meta.namespace, a.meta.name, a.meta.uid];
      JoinIsSound(parts);
      TagOfJoin(parts);
    }
  }

  lemma FitSubjects(b: KubeBinding)
    requires ReadableBinding(b)
    ensures Fit(SubjectFingerprint(b))
  {
    SubjectsAreWhole(Subjects(b));
    hide Subjects, SortedJoin, Whole, Flat;
    FitSortedJoin(Flat(Subjects(b), SubjectPartF()), ",");
  }

  lemma BindingsAreSound()
    ensures forall b | ReadableBinding(b) && Clean(b.meta.namespace) :: Sound(RoleBindingFingerprint(b)) && Tag(RoleBindingFingerprint(b)) == "rb"
    ensures forall b | ReadableBinding(b) :: Sound(ClusterRoleBindingFingerprint(b)) && Tag(ClusterRoleBindingFingerprint(b)) == "crb"
  {
    hide Join, SubjectFingerprint, Sound, Tag, Fit, ReadableSubject, Subjects;
    FitLiterals();
    forall b | ReadableBinding(b) && Clean(b.meta.namespace)
      ensures Sound(RoleBindingFingerprint(b)) && Tag(RoleBindingFingerprint(b)) == "rb"
    {
      FitSubjects(b);
      var parts := ["rb", b.meta.namespace, b.meta.name, b.meta.uid, b.roleRef, SubjectFingerprint(b)];
      JoinIsSound(parts);
      TagOfJoin(parts);
    }
    forall b | ReadableBinding(b)
      ensures Sound(ClusterRoleBindingFingerprint(b)) && Tag(ClusterRoleBindingFingerprint(b)) == "crb"
    {
      FitSubjects(b);
      var parts := ["crb", b.meta.name, b.meta.uid, b.roleRef, SubjectFingerprint(b)];
      JoinIsSound(parts);
      TagOfJoin(parts);
    }
  }

  // ---- Categories of one kind ----

  function PodPrintF(): KubePod -> seq<string> { (p: KubePod) => [PodFingerprint(p)] }
  function ServicePrintF(): KubeService -> seq<string> { (v: KubeService) => [ServiceFingerprint(v)] }
  function EventPrintF(): KubeEvent -> seq<string> { (e: KubeEvent) => [EventFingerprint(e)] }
  function PVCPrintF(): KubePVC -> seq<string> { (p: KubePVC) => [PVCFingerprint(p)] }
  function PVPrintF(): KubePV -> seq<string> { (p: KubePV) => [PVFingerprint(p)] }
  function ClassPrintF(): KubeStorageClass -> seq<string> { (x: KubeStorageClass) => [StorageClassFingerprint(x)] }
  function DriverPrintF(): KubeNamed -> seq<string> { (d: KubeNamed) => [CSIDriverFingerprint(d)] }
  function AccountPrintF(): KubeNamed -> seq<string> { (a: KubeNamed) => [ServiceAccountFingerprint(a)] }
  function RoleBindingPrintF(): KubeBinding -> seq<string> { (b: KubeBinding) => [RoleBindingFingerprint(b)] }
  function ClusterRoleBindingPrintF(): KubeBinding -> seq<string> { (b: KubeBinding) => [ClusterRoleBindingFingerprint(b)] }

  /** References carry the prints. */
  lemma PrintsOfRefs<A>(xs: seq<A>, f: A -> seq<Ref>, g: A -> seq<string>)
    requires forall x | x in xs :: |f(x)| == 1 && g(x) == [f(x)[0].fingerprint]
    ensures Flat(Flat(xs, f), FingerprintF()) == Flat(xs, g)
  {
    forall x | x in xs
      ensures Flat(f(x), FingerprintF()) == g(x)
    {
      OneFlat(f(x)[0], FingerprintF());
      assert f(x) == [f(x)[0]];
    }
    hide Flat, FingerprintF;
    FlatOfFlat(xs, f, FingerprintF(), g);
  }

  lemma PrintsAreWhole<A>(xs: seq<A>, g: A -> seq<string>)
    requires forall x | x in xs :: |g(x)| == 1 && Sound(g(x)[0])
    ensures forall s | s in Flat(xs, g) :: Sound(s)
  {
    FlatMembers(xs, g);
    hide Sound;
  }

  lemma TextsTell(xs: seq<string>, ys: seq<string>)
    requires SortedJoin(xs, "|") == SortedJoin(ys, "|") && (forall s | s in xs :: Sound(s)) && forall s | s in ys :: Sound(s)
    ensures multiset(xs) == multiset(ys)
  {
    hide SortedJoin;
    SortedJoinTells(xs, ys, '|');
  }

  lemma PodsTold(a: Snapshot, b: Snapshot)
    requires Readable(a) && Readable(b) && Joined(a, Pods) == Joined(b, Pods)
    ensures Reordered(a.pods, b.pods, SamePod)
  {
    forall p | p in a.pods || p in b.pods { PodIsSound(p); }
    forall p, q | p in a.pods && q in b.pods && PodPrintF()(p) == PodPrintF()(q)
      ensures SamePod(p, q)
    {
      assert [PodFingerprint(p)][0] == [PodFingerprint(q)][0];
      PodTold(p, q);
    }
    hide Flat, SortedJoin, PodFingerprint, Sound, SamePod, Reordered, Readable;
    PrintsOfRefs(a.pods, PodRefF(), PodPrintF());
    PrintsOfRefs(b.pods, PodRefF(), PodPrintF());
    PrintsAreWhole(a.pods, PodPrintF());
    PrintsAreWhole(b.pods, PodPrintF());
    TextsTell(Flat(a.pods, PodPrintF()), Flat(b.pods, PodPrintF()));
    ToldByContributions(a.pods, b.pods, PodPrintF(), SamePod);
  }

  lemma ServicesTold(a: Snapshot, b: Snapshot)
    requires Readable(a) && Readable(b) && Joined(a, Services) == Joined(b, Services)
    ensures multiset(a.services) == multiset(b.services)
  {
    forall v | v in a.services || v in b.services { ServiceIsSound(v); }
    forall v, w | v in a.services && w in b.services && ServicePrintF()(v) == ServicePrintF()(w)
      ensures v == w
    {
      assert [ServiceFingerprint(v)][0] == [ServiceFingerprint(w)][0];
      ServiceTold(v, w);
    }
    hide Flat, SortedJoin, ServiceFingerprint, Sound, Reordered, Readable;
    PrintsOfRefs(a.services, ServiceRefF(), ServicePrintF());
    PrintsOfRefs(b.services, ServiceRefF(), ServicePrintF());
    PrintsAreWhole(a.services, ServicePrintF());
    PrintsAreWhole(b.services, ServicePrintF());
    TextsTell(Flat(a.services, ServicePrintF()), Flat(b.services, ServicePrintF()));
    ToldByContributions(a.services, b.services, ServicePrintF(), (v: KubeService, w: KubeService) => v == w);
    EqualElements(a.services, b.services);
  }

  /** Lists whose elements agree in what is watched have watched lists that are permutations. */
  lemma WatchedTold<A(!new)>(xs: seq<A>, ys: seq<A>, text: A -> seq<string>, watch: A -> seq<A>)
    requires multiset(Flat(xs, text)) == multiset(Flat(ys, text))
    requires (forall x | x in xs :: |text(x)| == 1) && forall y | y in ys :: |text(y)| == 1
    requires forall x, y | x in xs && y in ys && text(x) == text(y) :: watch(x) == watch(y)
    ensures multiset(Flat(xs, watch)) == multiset(Flat(ys, watch))
  {
    var same := (x: A, y: A) => watch(x) == watch(y);
    hide Flat, Reordered;
    ToldByContributions(xs, ys, text, same);
    ReorderedFlat(xs, ys, same, watch, watch);
  }

  lemma EventPrintsTell(a: Snapshot, b: Snapshot)
    requires Readable(a) && Readable(b)
    ensures forall e, f | e in a.events && f in b.events && EventPrintF()(e) == EventPrintF()(f) :: WatchedEventF()(e) == WatchedEventF()(f)
  {
    hide EventFingerprint, WatchedEvent, ReadableEvent;
    forall e, f | e in a.events && f in b.events && EventPrintF()(e) == EventPrintF()(f)
      ensures WatchedEvent(e) == WatchedEvent(f)
    {
      assert [EventFingerprint(e)][0] == [EventFingerprint(f)][0];
      EventTold(e, f);
    }
  }

  lemma EventTexts(s: Snapshot)
    requires Readable(s)
    ensures Joined(s, Events) == SortedJoin(Flat(s.events, EventPrintF()), "|")
    ensures forall t | t in Flat(s.events, EventPrintF()) :: Sound(t)
  {
    EventPrintsAreSound(s.events);
    hide Flat, EventFingerprint, Sound, ReadableEvent, SortedJoin, Readable;
    PrintsOfRefs(s.events, EventRefF(), EventPrintF());
  }

  lemma EventPrintsAreSound(es: seq<KubeEvent>)
    requires forall e | e in es :: ReadableEvent(e)
    ensures forall t | t in Flat(es, EventPrintF()) :: Sound(t)
  {
    hide Flat, EventFingerprint, Sound, ReadableEvent;
    forall e | e in es { EventIsSound(e); }
    PrintsAreWhole(es, EventPrintF());
  }

  lemma EventsTold(a: Snapshot, b: Snapshot)
    requires Readable(a) && Readable(b) && Joined(a, Events) == Joined(b, Events)
    ensures multiset(Flat(a.events, WatchedEventF())) == multiset(Flat(b.events, WatchedEventF()))
  {
    hide Flat, SortedJoin, Sound, Readable, WatchedEventF, Joined, EventFingerprint;
    EventTexts(a);
    EventTexts(b);
    TextsTell(Flat(a.events, EventPrintF()), Flat(b.events, EventPrintF()));
    EventPrintsTell(a, b);
    WatchedTold(a.events, b.events, EventPrintF(), WatchedEventF());
  }

  // ---- Categories of several kinds ----

  predicate Tagged(texts: seq<string>, tag: string) {
    forall s | s in texts :: Sound(s) && Tag(s) == tag
  }

  lemma PrintsAreTagged<A>(xs: seq<A>, g: A -> seq<string>, tag: string)
    requires forall x | x in xs :: |g(x)| == 1 && Sound(g(x)[0]) && Tag(g(x)[0]) == tag
    ensures Tagged(Flat(xs, g), tag)
  {
    FlatMembers(xs, g);
    hide Sound, Tag;
  }

  /** The texts of the first kind agree, and so do the others. */
  lemma FirstKind(a: seq<string>, r: seq<string>, b: seq<string>, q: seq<string>, tag: string)
    requires multiset(a + r) == multiset(b + q) && Tagged(a, tag) && Tagged(b, tag)
    requires forall s | s in r || s in q :: Tag(s) != tag
    ensures multiset(a) == multiset(b) && multiset(r) == multiset(q)
  {
    hide Sound, Tag;
    assert multiset(a + r) == multiset(a) + multiset(r) && multiset(b + q) == multiset(b) + multiset(q);
    SameParts(multiset(a), multiset(r), multiset(b), multiset(q), (s: string) => Tag(s) == tag);
  }

  function StoragePrints(s: Snapshot): seq<string> {
    Flat(s.pvcs, PVCPrintF()) + (Flat(s.pvs, PVPrintF()) + (Flat(s.storageClasses, ClassPrintF()) + Flat(s.csiDrivers, DriverPrintF())))
  }

  lemma StorageTexts(s: Snapshot)
    ensures Flat(StorageRefs(s), FingerprintF()) == StoragePrints(s)
  {
    hide Flat, Join, StringMapFingerprint;
    PrintsOfRefs(s.pvcs, PVCRefF(), PVCPrintF());
    PrintsOfRefs(s.pvs, PVRefF(), PVPrintF());
    PrintsOfRefs(s.storageClasses, StorageClassRefF(), ClassPrintF());
    PrintsOfRefs(s.csiDrivers, CSIDriverRefF(), DriverPrintF());
    hide PVCRefF, PVRefF, StorageClassRefF, CSIDriverRefF, PVCPrintF, PVPrintF, ClassPrintF, DriverPrintF, FingerprintF;
    var x, y, z, u := Flat(s.pvcs, PVCRefF()), Flat(s.pvs, PVRefF()), Flat(s.storageClasses, StorageClassRefF()), Flat(s.csiDrivers, CSIDriverRefF());
    FlatAppend(x + y + z, u, FingerprintF());
    FlatAppend(x + y, z, FingerprintF());
    FlatAppend(x, y, FingerprintF());
  }

  lemma StorageTags(s: Snapshot)
    requires Readable(s)
    ensures Tagged(Flat(s.pvcs, PVCPrintF()), "pvc") && Tagged(Flat(s.pvs, PVPrintF()), "pv")
    ensures Tagged(Flat(s.storageClasses, ClassPrintF()), "storageclass") && Tagged(Flat(s.csiDrivers, DriverPrintF()), "csidriver")
  {
    StorageIsSound();
    ClassesAreSound();
    hide Flat, Join, Sound, Tag, StringMapFingerprint, Tagged, Fit, ReadableMap;
    PrintsAreTagged(s.pvcs, PVCPrintF(), "pvc");
    PrintsAreTagged(s.pvs, PVPrintF(), "pv");
    PrintsAreTagged(s.storageClasses, ClassPrintF(), "storageclass");
    PrintsAreTagged(s.csiDrivers, DriverPrintF(), "csidriver");
  }

  lemma TagsDiffer()
    ensures "pvc" != "pv" && "pvc" != "storageclass" && "pvc" != "csidriver" && "pv" != "storageclass" && "pv" != "csidriver"
    ensures "storageclass" != "csidriver" && "sa" != "rb" && "sa" != "crb" && "rb" != "crb"
  {
    assert |"pvc"| == 3 && |"pv"| == 2 && |"storageclass"| == 12 && |"csidriver"| == 9 && |"sa"| == 2 && |"rb"| == 2 && |"crb"| == 3;
    assert "sa"[0] != "rb"[0];
  }

  lemma StoragePrintsAreSound(s: Snapshot)
    requires Readable(s)
    ensures forall t | t in StoragePrints(s) :: Sound(t)
  {
    StorageTags(s);
    hide Flat, Sound, Tag, Readable, PVCPrintF, PVPrintF, ClassPrintF, DriverPrintF;
  }

  lemma StorageText(s: Snapshot)
    ensures Joined(s, Storage) == SortedJoin(StoragePrints(s), "|")
  {
    hide Flat, SortedJoin, StorageRefs, StoragePrints;
    StorageTexts(s);
  }

  lemma StorageTextsAgree(a: Snapshot, b: Snapshot)
    requires Readable(a) && Readable(b) && Joined(a, Storage) == Joined(b, Storage)
    ensures multiset(StoragePrints(a)) == multiset(StoragePrints(b))
  {
    hide Flat, Joined, SortedJoin, Sound, Readable, StoragePrints;
    StorageText(a);
    StorageText(b);
    StoragePrintsAreSound(a);
    StoragePrintsAreSound(b);
    TextsTell(StoragePrints(a), StoragePrints(b));
  }

  lemma NotTagged(texts: seq<string>, tag: string, other: string)
    requires Tagged(texts, tag) && tag != other
    ensures forall s | s in texts :: Tag(s) != other
  {
  }

  /** Four tagged lists in a row agree list by list. */
  lemma FourKinds(a: seq<string>, p: seq<string>, u: seq<string>, d: seq<string>, b: seq<string>, q: seq<string>, v: seq<string>, e: seq<string>)
    requires multiset(a + (p + (u + d))) == multiset(b + (q + (v + e)))
    requires Tagged(a, "pvc") && Tagged(b, "pvc") && Tagged(p, "pv") && Tagged(q, "pv") && Tagged(u, "storageclass") && Tagged(v, "storageclass")
    requires Tagged(d, "csidriver") && Tagged(e, "csidriver")
    ensures multiset(a) == multiset(b) && multiset(p) == multiset(q) && multiset(u) == multiset(v) && multiset(d) == multiset(e)
  {
    TagsDiffer();
    NotTagged(p, "pv", "pvc");
    NotTagged(q, "pv", "pvc");
    NotTagged(u, "storageclass", "pvc");
    NotTagged(v, "storageclass", "pvc");
    NotTagged(d, "csidriver", "pvc");
    NotTagged(e, "csidriver", "pvc");
    NotTagged(u, "storageclass", "pv");
    NotTagged(v, "storageclass", "pv");
    NotTagged(d, "csidriver", "pv");
    NotTagged(e, "csidriver", "pv");
    NotTagged(d, "csidriver", "storageclass");
    NotTagged(e, "csidriver", "storageclass");
    hide Tagged, Tag;
    FirstKind(a, p + (u + d), b, q + (v + e), "pvc");
    FirstKind(p, u + d, q, v + e, "pv");
    FirstKind(u, d, v, e, "storageclass");
  }

  /** Each storage kind's texts agree. */
  lemma StorageKinds(a: Snapshot, b: Snapshot)
    requires Readable(a) && Readable(b) && Joined(a, Storage) == Joined(b, Storage)
    ensures multiset(Flat(a.pvcs, PVCPrintF())) == multiset(Flat(b.pvcs, PVCPrintF()))
    ensures multiset(Flat(a.pvs, PVPrintF())) == multiset(Flat(b.pvs, PVPrintF()))
    ensures multiset(Flat(a.storageClasses, ClassPrintF())) == multiset(Flat(b.storageClasses, ClassPrintF()))
    ensures multiset(Flat(a.csiDrivers, DriverPrintF())) == multiset(Flat(b.csiDrivers, DriverPrintF()))
  {
    hide Flat, Joined, Tagged, Readable, PVCPrintF, PVPrintF, ClassPrintF, DriverPrintF;
    StorageTextsAgree(a, b);
    StorageTags(a);
    StorageTags(b);
    FourKinds(Flat(a.pvcs, PVCPrintF()), Flat(a.pvs, PVPrintF()), Flat(a.storageClasses, ClassPrintF()), Flat(a.csiDrivers, DriverPrintF()),
              Flat(b.pvcs, PVCPrintF()), Flat(b.pvs, PVPrintF()), Flat(b.storageClasses, ClassPrintF()), Flat(b.csiDrivers, DriverPrintF()));
  }

  lemma ClaimPrintsTell(a: Snapshot, b: Snapshot)
    requires Readable(a) && Readable(b)
    ensures forall p, q | p in a.pvcs && q in b.pvcs && PVCPrintF()(p) == PVCPrintF()(q) :: WatchedPVCF()(p) == WatchedPVCF()(q)
    ensures forall p, q | p in a.pvs && q in b.pvs && PVPrintF()(p) == PVPrintF()(q) :: WatchedPVF()(p) == WatchedPVF()(q)
  {
    hide PVCFingerprint, PVFingerprint, WatchedPVC, WatchedPV, ReadablePVC, ReadablePV;
    forall p, q | p in a.pvcs && q in b.pvcs && PVCPrintF()(p) == PVCPrintF()(q)
      ensures WatchedPVC(p) == WatchedPVC(q)
    {
      assert [PVCFingerprint(p)][0] == [PVCFingerprint(q)][0];
      PVCTold(p, q);
    }
    forall p, q | p in a.pvs && q in b.pvs && PVPrintF()(p) == PVPrintF()(q)
      ensures WatchedPV(p) == WatchedPV(q)
    {
      assert [PVFingerprint(p)][0] == [PVFingerprint(q)][0];
      PVTold(p, q);
    }
  }

  lemma ClaimsTold(a: Snapshot, b: Snapshot)
    requires Readable(a) && Readable(b) && Joined(a, Storage) == Joined(b, Storage)
    ensures multiset(Flat(a.pvcs, WatchedPVCF())) == multiset(Flat(b.pvcs, WatchedPVCF()))
    ensures multiset(Flat(a.pvs, WatchedPVF())) == multiset(Flat(b.pvs, WatchedPVF()))
  {
    hide Flat, PVCFingerprint, PVFingerprint, Readable, WatchedPVCF, WatchedPVF, Joined, ClassPrintF, DriverPrintF;
    StorageKinds(a, b);
    ClaimPrintsTell(a, b);
    WatchedTold(a.pvcs, b.pvcs, PVCPrintF(), WatchedPVCF());
    WatchedTold(a.pvs, b.pvs, PVPrintF(), WatchedPVF());
  }

  lemma ClassPrintsTell(a: Snapshot, b: Snapshot)
    requires Readable(a) && Readable(b)
    ensures forall x, y | x in a.storageClasses && y in b.storageClasses && ClassPrintF()(x) == ClassPrintF()(y) :: WatchedClassF()(x) == WatchedClassF()(y)
    ensures forall d, e | d in a.csiDrivers && e in b.csiDrivers && DriverPrintF()(d) == DriverPrintF()(e) :: WatchedDriverF()(d) == WatchedDriverF()(e)
  {
    hide StorageClassFingerprint, CSIDriverFingerprint, WatchedClass, WatchedDriver, ReadableClass, ReadableDriver;
    forall x, y | x in a.storageClasses && y in b.storageClasses && ClassPrintF()(x) == ClassPrintF()(y)
      ensures WatchedClass(x) == WatchedClass(y)
    {
      assert [StorageClassFingerprint(x)][0] == [StorageClassFingerprint(y)][0];
      ClassTold(x, y);
    }
    forall d, e | d in a.csiDrivers && e in b.csiDrivers && DriverPrintF()(d) == DriverPrintF()(e)
      ensures WatchedDriver(d) == WatchedDriver(e)
    {
      assert [CSIDriverFingerprint(d)][0] == [CSIDriverFingerprint(e)][0];
      DriverTold(d, e);
    }
  }

  lemma ClassesTold(a: Snapshot, b: Snapshot)
    requires Readable(a) && Readable(b) && Joined(a, Storage) == Joined(b, Storage)
    ensures multiset(Flat(a.storageClasses, WatchedClassF())) == multiset(Flat(b.storageClasses, WatchedClassF()))
    ensures multiset(Flat(a.csiDrivers, WatchedDriverF())) == multiset(Flat(b.csiDrivers, WatchedDriverF()))
  {
    hide Flat, StorageClassFingerprint, CSIDriverFingerprint, Readable, WatchedClassF, WatchedDriverF, Joined, PVCPrintF, PVPrintF;
    StorageKinds(a, b);
    ClassPrintsTell(a, b);
    WatchedTold(a.storageClasses, b.storageClasses, ClassPrintF(), WatchedClassF());
    WatchedTold(a.csiDrivers, b.csiDrivers, DriverPrintF(), WatchedDriverF());
  }

  function IdentityPrints(s: Snapshot): seq<string> {
    Flat(s.serviceAccounts, AccountPrintF()) + (Flat(s.roleBindings, RoleBindingPrintF()) + Flat(s.clusterRoleBindings, ClusterRoleBindingPrintF()))
  }

  lemma IdentityTexts(s: Snapshot)
    ensures Flat(IdentityRefs(s), FingerprintF()) == IdentityPrints(s)
  {
    hide Flat, Join, SubjectFingerprint;
    PrintsOfRefs(s.serviceAccounts, ServiceAccountRefF(), AccountPrintF());
    PrintsOfRefs(s.roleBindings, RoleBindingRefF(), RoleBindingPrintF());
    PrintsOfRefs(s.clusterRoleBindings, ClusterRoleBindingRefF(), ClusterRoleBindingPrintF());
    hide ServiceAccountRefF, RoleBindingRefF, ClusterRoleBindingRefF, AccountPrintF, RoleBindingPrintF, ClusterRoleBindingPrintF, FingerprintF;
    var x, y, z := Flat(s.serviceAccounts, ServiceAccountRefF()), Flat(s.roleBindings, RoleBindingRefF()),
                   Flat(s.clusterRoleBindings, ClusterRoleBindingRefF());
    FlatAppend(x + y, z, FingerprintF());
    FlatAppend(x, y, FingerprintF());
  }

  lemma IdentityTags(s: Snapshot)
    requires Readable(s)
    ensures Tagged(Flat(s.serviceAccounts, AccountPrintF()), "sa") && Tagged(Flat(s.roleBindings, RoleBindingPrintF()), "rb")
    ensures Tagged(Flat(s.clusterRoleBindings, ClusterRoleBindingPrintF()), "crb")
    ensures forall t | t in IdentityPrints(s) :: Sound(t)
  {
    AccountsAreSound();
    BindingsAreSound();
    hide Flat, Join, Sound, Tag, SubjectFingerprint, Fit, ReadableBinding;
    PrintsAreTagged(s.serviceAccounts, AccountPrintF(), "sa");
    PrintsAreTagged(s.roleBindings, RoleBindingPrintF(), "rb");
    PrintsAreTagged(s.clusterRoleBindings, ClusterRoleBindingPrintF(), "crb");
  }

  lemma IdentityText(s: Snapshot)
    ensures Joined(s, Identities) == SortedJoin(IdentityPrints(s), "|")
  {
    hide Flat, SortedJoin, IdentityRefs, IdentityPrints;
    IdentityTexts(s);
  }

  lemma IdentityTextsAgree(a: Snapshot, b: Snapshot)
    requires Readable(a) && Readable(b) && Joined(a, Identities) == Joined(b, Identities)
    ensures multiset(IdentityPrints(a)) == multiset(IdentityPrints(b))
  {
    hide Flat, Joined, SortedJoin, Sound, Tagged, Readable, IdentityPrints;
    IdentityText(a);
    IdentityText(b);
    IdentityTags(a);
    IdentityTags(b);
    TextsTell(IdentityPrints(a), IdentityPrints(b));
  }

  lemma ThreeKinds(a: seq<string>, p: seq<string>, u: seq<string>, b: seq<string>, q: seq<string>, v: seq<string>)
    requires multiset(a + (p + u)) == multiset(b + (q + v))
    requires Tagged(a, "sa") && Tagged(b, "sa") && Tagged(p, "rb") && Tagged(q, "rb") && Tagged(u, "crb") && Tagged(v, "crb")
    ensures multiset(a) == multiset(b) && multiset(p) == multiset(q) && multiset(u) == multiset(v)
  {
    TagsDiffer();
    NotTagged(p, "rb", "sa");
    NotTagged(q, "rb", "sa");
    NotTagged(u, "crb", "sa");
    NotTagged(v, "crb", "sa");
    NotTagged(u, "crb", "rb");
    NotTagged(v, "crb", "rb");
    hide Tagged, Tag;
    FirstKind(a, p + u, b, q + v, "sa");
    FirstKind(p, u, q, v, "rb");
  }

  lemma IdentityKinds(a: Snapshot, b: Snapshot)
    requires Readable(a) && Readable(b) && Joined(a, Identities) == Joined(b, Identities)
    ensures multiset(Flat(a.serviceAccounts, AccountPrintF())) == multiset(Flat(b.serviceAccounts, AccountPrintF()))
    ensures multiset(Flat(a.roleBindings, RoleBindingPrintF())) == multiset(Flat(b.roleBindings, RoleBindingPrintF()))
    ensures multiset(Flat(a.clusterRoleBindings, ClusterRoleBindingPrintF())) == multiset(Flat(b.clusterRoleBindings, ClusterRoleBindingPrintF()))
  {
    hide Flat, Joined, Tagged, Sound, Readable, AccountPrintF, RoleBindingPrintF, ClusterRoleBindingPrintF;
    IdentityTextsAgree(a, b);
    IdentityTags(a);
    IdentityTags(b);
    ThreeKinds(Flat(a.serviceAccounts, AccountPrintF()), Flat(a.roleBindings, RoleBindingPrintF()), Flat(a.clusterRoleBindings, ClusterRoleBindingPrintF()),
               Flat(b.serviceAccounts, AccountPrintF()), Flat(b.roleBindings, RoleBindingPrintF()), Flat(b.clusterRoleBindings, ClusterRoleBindingPrintF()));
  }

  /** Lists related through what is watched of their elements. */
  lemma WatchedReordered<A(!new)>(xs: seq<A>, ys: seq<A>, watch: A -> A, watched: A -> seq<A>, same: (A, A) -> bool, alike: (A, A) -> bool)
    requires Reordered(xs, ys, alike) && (forall x, y | alike(x, y) :: same(watch(x), watch(y))) && forall x :: watched(x) == [watch(x)]
    ensures Reordered(Flat(xs, watched), Flat(ys, watched), same)
  {
    var zs :| multiset(zs) == multiset(xs) && |zs| == |ys| && forall i | 0 <= i < |ys| :: alike(zs[i], ys[i]);
    hide Reordered, Flat;
    PermutedFlat(xs, zs, watched);
    SinglesAt(zs, watch, watched);
    SinglesAt(ys, watch, watched);
    ReorderedBy(Flat(xs, watched), Flat(zs, watched), Flat(ys, watched), same);
  }

  lemma {:induction false} SinglesAt<A>(xs: seq<A>, watch: A -> A, watched: A -> seq<A>)
    requires forall x | x in xs :: watched(x) == [watch(x)]
    ensures |Flat(xs, watched)| == |xs| && forall i | 0 <= i < |xs| :: Flat(xs, watched)[i] == watch(xs[i])
  {
    if xs != [] {
      SinglesAt(xs[..|xs| - 1], watch, watched);
      assert xs[|xs| - 1] in xs;
    }
  }

  lemma AccountPrintsTell(a: Snapshot, b: Snapshot)
    requires Readable(a) && Readable(b)
    ensures forall x, y | x in a.serviceAccounts && y in b.serviceAccounts && AccountPrintF()(x) == AccountPrintF()(y) ::
              WatchedAccountF()(x) == WatchedAccountF()(y)
  {
    hide ServiceAccountFingerprint, WatchedAccount, ReadableMeta;
    forall x, y | x in a.serviceAccounts && y in b.serviceAccounts && AccountPrintF()(x) == AccountPrintF()(y)
      ensures WatchedAccount(x) == WatchedAccount(y)
    {
      assert [ServiceAccountFingerprint(x)][0] == [ServiceAccountFingerprint(y)][0];
      AccountTold(x, y);
    }
  }

  lemma AccountsTold(a: Snapshot, b: Snapshot)
    requires Readable(a) && Readable(b) && Joined(a, Identities) == Joined(b, Identities)
    ensures multiset(Flat(a.serviceAccounts, WatchedAccountF())) == multiset(Flat(b.serviceAccounts, WatchedAccountF()))
  {
    hide Flat, ServiceAccountFingerprint, Readable, WatchedAccountF, Joined, RoleBindingPrintF, ClusterRoleBindingPrintF;
    IdentityKinds(a, b);
    AccountPrintsTell(a, b);
    WatchedTold(a.serviceAccounts, b.serviceAccounts, AccountPrintF(), WatchedAccountF());
  }

  ghost predicate SameRoleBinding(x: KubeBinding, y: KubeBinding) { SameBinding(WatchedRoleBinding(x), WatchedRoleBinding(y)) }
  ghost predicate SameClusterRoleBinding(x: KubeBinding, y: KubeBinding) {
    SameBinding(WatchedClusterRoleBinding(x), WatchedClusterRoleBinding(y))
  }

  lemma BindingPrintsTell(a: Snapshot, b: Snapshot)
    requires Readable(a) && Readable(b)
    ensures forall x, y | x in a.roleBindings && y in b.roleBindings && RoleBindingPrintF()(x) == RoleBindingPrintF()(y) :: SameRoleBinding(x, y)
    ensures forall x, y | x in a.clusterRoleBindings && y in b.clusterRoleBindings && ClusterRoleBindingPrintF()(x) == ClusterRoleBindingPrintF()(y) ::
              SameClusterRoleBinding(x, y)
  {
    hide RoleBindingFingerprint, ClusterRoleBindingFingerprint, WatchedRoleBinding, WatchedClusterRoleBinding, SameBinding, ReadableBinding;
    forall x, y | x in a.roleBindings && y in b.roleBindings && RoleBindingPrintF()(x) == RoleBindingPrintF()(y)
      ensures SameRoleBinding(x, y)
    {
      assert [RoleBindingFingerprint(x)][0] == [RoleBindingFingerprint(y)][0];
      RoleBindingTold(x, y);
    }
    forall x, y | x in a.clusterRoleBindings && y in b.clusterRoleBindings && ClusterRoleBindingPrintF()(x) == ClusterRoleBindingPrintF()(y)
      ensures SameClusterRoleBinding(x, y)
    {
      assert [ClusterRoleBindingFingerprint(x)][0] == [ClusterRoleBindingFingerprint(y)][0];
      ClusterRoleBindingTold(x, y);
    }
  }

  lemma BindingsReordered(a: Snapshot, b: Snapshot)
    requires Readable(a) && Readable(b) && Joined(a, Identities) == Joined(b, Identities)
    ensures Reordered(a.roleBindings, b.roleBindings, SameRoleBinding)
    ensures Reordered(a.clusterRoleBindings, b.clusterRoleBindings, SameClusterRoleBinding)
  {
    hide Flat, RoleBindingFingerprint, ClusterRoleBindingFingerprint, Readable, Joined, Reordered, SameRoleBinding, SameClusterRoleBinding,
         AccountPrintF;
    IdentityKinds(a, b);
    BindingPrintsTell(a, b);
    ToldByContributions(a.roleBindings, b.roleBindings, RoleBindingPrintF(), SameRoleBinding);
    ToldByContributions(a.clusterRoleBindings, b.clusterRoleBindings, ClusterRoleBindingPrintF(), SameClusterRoleBinding);
  }

  lemma BindingsTold(a: Snapshot, b: Snapshot)
    requires Readable(a) && Readable(b) && Joined(a, Identities) == Joined(b, Identities)
    ensures Reordered(Flat(a.roleBindings, WatchedRoleBindingF()), Flat(b.roleBindings, WatchedRoleBindingF()), SameBinding)
    ensures Reordered(Flat(a.clusterRoleBindings, WatchedClusterRoleBindingF()), Flat(b.clusterRoleBindings, WatchedClusterRoleBindingF()), SameBinding)
  {
    hide Flat, Readable, WatchedRoleBinding, WatchedClusterRoleBinding, Joined, SameBinding, Reordered;
    BindingsReordered(a, b);
    WatchedReordered(a.roleBindings, b.roleBindings, WatchedRoleBinding, WatchedRoleBindingF(), SameBinding, SameRoleBinding);
    WatchedReordered(a.clusterRoleBindings, b.clusterRoleBindings, WatchedClusterRoleBinding, WatchedClusterRoleBindingF(), SameBinding,
                     SameClusterRoleBinding);
  }
}
