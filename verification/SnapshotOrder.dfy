/** Snapshots that differ only in the order of their lists have the same fingerprints. */
module SnapshotOrder {
  import opened Strings
  import opened Sorting
  import opened GraphModel
  import opened Resources
  import opened OwnerChain
  import opened OwnerReach
  import opened Fingerprints

  // ---- Lists up to order ----

  /** `ys` is a permutation of `xs` up to a relation between elements. */
  ghost predicate Reordered<T(!new)>(xs: seq<T>, ys: seq<T>, same: (T, T) -> bool) {
    exists zs: seq<T> :: multiset(zs) == multiset(xs) && |zs| == |ys| && forall i | 0 <= i < |ys| :: same(zs[i], ys[i])
  }

  lemma ReorderedMembers<T(!new)>(xs: seq<T>, ys: seq<T>, same: (T, T) -> bool)
    requires Reordered(xs, ys, same)
    ensures forall x | x in xs :: exists y | y in ys :: same(x, y)
    ensures forall y | y in ys :: exists x | x in xs :: same(x, y)
  {
    var zs :| multiset(zs) == multiset(xs) && |zs| == |ys| && forall i | 0 <= i < |ys| :: same(zs[i], ys[i]);
    SameElements(xs, zs);
    forall x | x in xs
      ensures exists y | y in ys :: same(x, y)
    {
      var i :| 0 <= i < |zs| && zs[i] == x;
      assert ys[i] in ys;
    }
    forall y | y in ys
      ensures exists x | x in xs :: same(x, y)
    {
      var i :| 0 <= i < |ys| && ys[i] == y;
      assert zs[i] in zs;
    }
  }

  lemma {:induction false} FlatAppend<A, B>(a: seq<A>, b: seq<A>, f: A -> seq<B>)
    ensures Flat(a + b, f) == Flat(a, f) + Flat(b, f)
    decreases b
  {
    if b == [] {
      assert a + b == a;
    } else {
      FlatAppend(a, b[..|b| - 1], f);
      assert (a + b)[..|a + b| - 1] == a + b[..|b| - 1];
    }
  }

  lemma TakenOut<A>(zs: seq<A>, i: nat)
    requires i < |zs|
    ensures multiset(zs[..i] + zs[i + 1..]) == multiset(zs) - multiset{zs[i]}
  {
    assert zs == zs[..i] + [zs[i]] + zs[i + 1..];
  }

  lemma OneOfThree<T>(a: seq<T>, b: seq<T>, c: seq<T>)
    ensures multiset(a + (b + c)) == multiset(a + c) + multiset(b)
  {
    assert multiset(a + (b + c)) == multiset(a) + multiset(b + c);
  }

  lemma FlatTakenOut<A, B>(zs: seq<A>, i: nat, f: A -> seq<B>)
    requires i < |zs|
    ensures multiset(Flat(zs, f)) == multiset(Flat(zs[..i] + zs[i + 1..], f)) + multiset(f(zs[i]))
  {
    var before, x, after := zs[..i], [zs[i]], zs[i + 1..];
    assert before + (x + after) == zs;
    OneFlat(zs[i], f);
    FlatAppend(x, after, f);
    FlatAppend(before, x + after, f);
    FlatAppend(before, after, f);
    hide Flat;
    OneOfThree(Flat(before, f), f(zs[i]), Flat(after, f));
  }

  /** Contributions of a permuted list are a permutation. */
  lemma {:induction false} PermutedFlat<A, B>(xs: seq<A>, zs: seq<A>, f: A -> seq<B>)
    requires multiset(xs) == multiset(zs)
    ensures multiset(Flat(xs, f)) == multiset(Flat(zs, f))
    decreases |xs|
  {
    if xs == [] {
      assert |multiset(zs)| == 0;
    } else {
      var last := |xs| - 1;
      assert xs[last] in multiset(zs);
      var i :| 0 <= i < |zs| && zs[i] == xs[last];
      TakenOut(xs, last);
      TakenOut(zs, i);
      FlatTakenOut(xs, last, f);
      FlatTakenOut(zs, i, f);
      hide Flat;
      PermutedFlat(xs[..last] + xs[last + 1..], zs[..i] + zs[i + 1..], f);
    }
  }

  lemma OneFlat<A, B>(x: A, f: A -> seq<B>)
    ensures Flat([x], f) == f(x)
  {
    assert [x][..0] == [];
  }

  lemma {:induction false} PointwiseFlat<A, B>(zs: seq<A>, ys: seq<A>, f: A -> seq<B>, h: A -> seq<B>)
    requires |zs| == |ys| && forall i | 0 <= i < |ys| :: f(zs[i]) == h(ys[i])
    ensures Flat(zs, f) == Flat(ys, h)
  {
    if zs != [] {
      PointwiseFlat(zs[..|zs| - 1], ys[..|ys| - 1], f, h);
    }
  }

  /** Related elements that contribute alike make the reordered list contribute a permutation. */
  lemma ReorderedFlat<A(!new), B>(xs: seq<A>, ys: seq<A>, same: (A, A) -> bool, f: A -> seq<B>, h: A -> seq<B>)
    requires Reordered(xs, ys, same) && forall x, y | same(x, y) :: f(x) == h(y)
    ensures multiset(Flat(xs, f)) == multiset(Flat(ys, h))
  {
    var zs :| multiset(zs) == multiset(xs) && |zs| == |ys| && forall i | 0 <= i < |ys| :: same(zs[i], ys[i]);
    PermutedFlat(xs, zs, f);
    PointwiseFlat(zs, ys, f, h);
  }

  // ---- Objects up to order ----

  ghost predicate SameWorkload(x: KubeWorkload, y: KubeWorkload) {
    y == x.(ownerReferences := y.ownerReferences) && multiset(x.ownerReferences) == multiset(y.ownerReferences)
  }

  ghost predicate SameReplicaSet(x: KubeReplicaSet, y: KubeReplicaSet) {
    y == x.(ownerReferences := y.ownerReferences) && multiset(x.ownerReferences) == multiset(y.ownerReferences)
  }

  ghost predicate SamePod(x: KubePod, y: KubePod) {
    && y == x.(ownerReferences := y.ownerReferences, containerImages := y.containerImages, configMapRefs := y.configMapRefs,
               secretRefs := y.secretRefs, pvcRefs := y.pvcRefs)
    && multiset(x.ownerReferences) == multiset(y.ownerReferences) && multiset(x.containerImages) == multiset(y.containerImages)
    && multiset(x.configMapRefs) == multiset(y.configMapRefs) && multiset(x.secretRefs) == multiset(y.secretRefs)
    && multiset(x.pvcRefs) == multiset(y.pvcRefs)
  }

  /** Subjects move as triples. */
  ghost predicate SameBinding(x: KubeBinding, y: KubeBinding) {
    && y == x.(subjectKinds := y.subjectKinds, subjectNames := y.subjectNames, subjectNamespaces := y.subjectNamespaces)
    && multiset(Subjects(x)) == multiset(Subjects(y))
  }

  /** Two snapshots alike but for order, in everything a poll watches. Nothing is asked of what it does not watch. */
  ghost predicate SameButOrder(a: Snapshot, b: Snapshot) {
    && Reordered(a.workloads, b.workloads, SameWorkload) && Reordered(a.replicaSets, b.replicaSets, SameReplicaSet)
    && Reordered(a.pods, b.pods, SamePod) && multiset(a.services) == multiset(b.services)
    && multiset(a.pvcs) == multiset(b.pvcs) && multiset(a.pvs) == multiset(b.pvs)
    && multiset(a.storageClasses) == multiset(b.storageClasses) && multiset(a.csiDrivers) == multiset(b.csiDrivers)
    && multiset(a.events) == multiset(b.events) && multiset(a.serviceAccounts) == multiset(b.serviceAccounts)
    && Reordered(a.roleBindings, b.roleBindings, SameBinding) && Reordered(a.clusterRoleBindings, b.clusterRoleBindings, SameBinding)
  }

  // ---- Fingerprints of objects ----

  lemma OwnerFingerprintForgetsOrder(a: seq<OwnerReference>, b: seq<OwnerReference>)
    requires multiset(a) == multiset(b)
    ensures OwnerReferenceFingerprint(a) == OwnerReferenceFingerprint(b)
  {
    PermutedFlat(a, b, RefPartF());
    SortedJoinForgetsOrder(Flat(a, RefPartF()), Flat(b, RefPartF()), ",");
  }

  lemma StringsForgetOrder(a: seq<string>, b: seq<string>)
    requires multiset(a) == multiset(b)
    ensures StringSliceFingerprint(a) == StringSliceFingerprint(b)
  {
    SortedJoinForgetsOrder(a, b, ",");
  }

  lemma SubjectsForgetOrder(x: KubeBinding, y: KubeBinding)
    requires multiset(Subjects(x)) == multiset(Subjects(y))
    ensures SubjectFingerprint(x) == SubjectFingerprint(y)
  {
    hide Subjects;
    PermutedFlat(Subjects(x), Subjects(y), SubjectPartF());
    SortedJoinForgetsOrder(Flat(Subjects(x), SubjectPartF()), Flat(Subjects(y), SubjectPartF()), ",");
  }

  lemma WorkloadFingerprintForgetsOrder(x: KubeWorkload, y: KubeWorkload)
    requires SameWorkload(x, y)
    ensures WorkloadFingerprint(x) == WorkloadFingerprint(y)
  {
    hide StringMapFingerprint, OwnerReferenceFingerprint, Join, Decimal;
    OwnerFingerprintForgetsOrder(x.ownerReferences, y.ownerReferences);
  }

  lemma ReplicaSetFingerprintForgetsOrder(x: KubeReplicaSet, y: KubeReplicaSet)
    requires SameReplicaSet(x, y)
    ensures ReplicaSetFingerprint(x) == ReplicaSetFingerprint(y)
  {
    hide StringMapFingerprint, OwnerReferenceFingerprint, Join, Decimal;
    OwnerFingerprintForgetsOrder(x.ownerReferences, y.ownerReferences);
  }

  lemma PodFingerprintForgetsOrder(x: KubePod, y: KubePod)
    requires SamePod(x, y)
    ensures PodFingerprint(x) == PodFingerprint(y)
  {
    hide StringMapFingerprint, OwnerReferenceFingerprint, StringSliceFingerprint, Join;
    OwnerFingerprintForgetsOrder(x.ownerReferences, y.ownerReferences);
    StringsForgetOrder(x.containerImages, y.containerImages);
    StringsForgetOrder(x.configMapRefs, y.configMapRefs);
    StringsForgetOrder(x.secretRefs, y.secretRefs);
    StringsForgetOrder(x.pvcRefs, y.pvcRefs);
  }

  lemma BindingFingerprintsForgetOrder(x: KubeBinding, y: KubeBinding)
    requires SameBinding(x, y)
    ensures RoleBindingFingerprint(x) == RoleBindingFingerprint(y) && ClusterRoleBindingFingerprint(x) == ClusterRoleBindingFingerprint(y)
  {
    hide SubjectFingerprint, Join, Subjects;
    SubjectsForgetOrder(x, y);
  }

  // ---- Owner resolution ----

  function RefKeys(o: OwnerObject): set<string> {
    {RefKey(o.namespace, o.kind, o.name)}
    + if o.apiVersion == "" then {} else {VersionRefKey(o.namespace, o.apiVersion, o.kind, o.name)}
  }

  function UIDKeys(o: OwnerObject): set<string> {
    if o.uid == "" then {} else {UIDKey(o.namespace, o.kind, o.uid)}
  }

  predicate Confusable(a: OwnerObject, b: OwnerObject) {
    || !(RefKeys(a) !! RefKeys(b)) || !(UIDKeys(a) !! UIDKeys(b)) || SeenKey(a) == SeenKey(b)
    || (a.workload && b.workload && (a.target.id == b.target.id || TargetKey()(a.target) == TargetKey()(b.target)))
  }

  /** No two workloads or replica sets share a name, a UID or an identifier. */
  ghost predicate DistinctOwners(objs: seq<OwnerObject>) {
    forall a, b | a in objs && b in objs && Confusable(a, b) :: a == b
  }

  function OwnersOf(s: Snapshot): seq<OwnerObject> { OwnerObjects("stream", s.workloads, s.replicaSets) }

  /** The map holds every object under each of its keys. */
  ghost predicate Holds(m: map<string, OwnerObject>, objs: seq<OwnerObject>, keys: OwnerObject -> set<string>) {
    && (forall k | k in m :: exists o | o in objs :: k in keys(o))
    && (forall o, k | o in objs && k in keys(o) :: k in m && m[k] == o)
  }

  lemma HoldsMore(m: map<string, OwnerObject>, init: seq<OwnerObject>, last: OwnerObject, keys: OwnerObject -> set<string>, n: map<string, OwnerObject>)
    requires Holds(m, init, keys) && forall o, k | o in init && k in keys(o) && k in keys(last) :: o == last
    requires forall k :: k in n <==> k in m || k in keys(last)
    requires forall k | k in n :: n[k] == if k in keys(last) then last else m[k]
    ensures Holds(n, init + [last], keys)
  {
    forall k | k in n
      ensures exists o | o in init + [last] :: k in keys(o)
    {
      if k in keys(last) {
        assert last in init + [last];
      } else {
        var o :| o in init && k in keys(o);
        assert o in init + [last];
      }
    }
  }

  lemma SharedKeysConfuse(a: OwnerObject, b: OwnerObject)
    ensures forall k | k in RefKeys(a) && k in RefKeys(b) :: Confusable(a, b)
    ensures forall k | k in UIDKeys(a) && k in UIDKeys(b) :: Confusable(a, b)
  {
    hide RefKeys, UIDKeys, SeenKey;
    assert forall k | k in RefKeys(a) && k in RefKeys(b) :: k in RefKeys(a) * RefKeys(b);
    assert forall k | k in UIDKeys(a) && k in UIDKeys(b) :: k in UIDKeys(a) * UIDKeys(b);
  }

  lemma DistinctBefore(objs: seq<OwnerObject>)
    requires objs != [] && DistinctOwners(objs)
    ensures var init, last := objs[..|objs| - 1], objs[|objs| - 1];
            && DistinctOwners(init)
            && (forall o, k | o in init && k in RefKeys(o) && k in RefKeys(last) :: o == last)
            && (forall o, k | o in init && k in UIDKeys(o) && k in UIDKeys(last) :: o == last)
  {
    var init, last := objs[..|objs| - 1], objs[|objs| - 1];
    hide RefKeys, UIDKeys, Confusable;
    assert forall o | o in init :: o in objs;
    assert last in objs;
    forall o { SharedKeysConfuse(o, last); }
  }

  /** Distinct owners make the resolver's maps independent of the order in which objects were added. */
  lemma {:induction false} ResolverHoldsAll(objs: seq<OwnerObject>)
    requires DistinctOwners(objs)
    ensures var r := AddAll(Resolver(map[], map[]), objs); Holds(r.byRef, objs, RefKeys) && Holds(r.byUID, objs, UIDKeys)
  {
    if objs != [] {
      var init, last := objs[..|objs| - 1], objs[|objs| - 1];
      var before := AddAll(Resolver(map[], map[]), init);
      DistinctBefore(objs);
      ResolverHoldsAll(init);
      OneMoreObject(before, last);
      assert objs == init + [last];
      hide RefKeys, UIDKeys, DistinctOwners, Holds;
      HoldsMore(before.byRef, init, last, RefKeys, before.Add(last).byRef);
      HoldsMore(before.byUID, init, last, UIDKeys, before.Add(last).byUID);
    }
  }

  lemma OneMoreObject(r: Resolver, o: OwnerObject)
    ensures forall k :: k in r.Add(o).byRef <==> k in r.byRef || k in RefKeys(o)
    ensures forall k | k in r.Add(o).byRef :: r.Add(o).byRef[k] == if k in RefKeys(o) then o else r.byRef[k]
    ensures forall k :: k in r.Add(o).byUID <==> k in r.byUID || k in UIDKeys(o)
    ensures forall k | k in r.Add(o).byUID :: r.Add(o).byUID[k] == if k in UIDKeys(o) then o else r.byUID[k]
  {
    hide RefKey, VersionRefKey, UIDKey;
  }

  /** Every owner listed on one side is listed on the other, up to the order of its references. */
  ghost predicate Correspond(a: seq<OwnerObject>, b: seq<OwnerObject>) {
    forall o | o in a :: exists p | p in b :: OwnerReach.SameButOrder(o, p)
  }

  lemma OwnersFollow(a: Snapshot, b: Snapshot)
    requires forall w | w in a.workloads :: exists v | v in b.workloads :: SameWorkload(w, v)
    requires forall x | x in a.replicaSets :: exists y | y in b.replicaSets :: SameReplicaSet(x, y)
    ensures Correspond(OwnersOf(a), OwnersOf(b))
  {
    hide WorkloadID, SameWorkload, SameReplicaSet;
    forall o | o in OwnersOf(a)
      ensures exists p | p in OwnersOf(b) :: OwnerReach.SameButOrder(o, p)
    {
      var i :| 0 <= i < |OwnersOf(a)| && OwnersOf(a)[i] == o;
      if i < |a.workloads| {
        var w := a.workloads[i];
        assert w in a.workloads;
        var v :| v in b.workloads && SameWorkload(w, v);
        WorkloadIsListed(b, v);
        SameWorkloadObject(w, v);
      } else {
        var x := a.replicaSets[i - |a.workloads|];
        assert x in a.replicaSets;
        var y :| y in b.replicaSets && SameReplicaSet(x, y);
        ReplicaSetIsListed(b, y);
        SameReplicaSetObject(x, y);
      }
    }
  }

  lemma SameWorkloadObject(w: KubeWorkload, v: KubeWorkload)
    requires SameWorkload(w, v)
    ensures OwnerReach.SameButOrder(WorkloadObject("stream", w), WorkloadObject("stream", v))
  {
  }

  lemma SameReplicaSetObject(x: KubeReplicaSet, y: KubeReplicaSet)
    requires SameReplicaSet(x, y)
    ensures OwnerReach.SameButOrder(ReplicaSetObject(x), ReplicaSetObject(y))
  {
  }

  lemma OwnersCorrespond(a: Snapshot, b: Snapshot)
    requires Reordered(a.workloads, b.workloads, SameWorkload) && Reordered(a.replicaSets, b.replicaSets, SameReplicaSet)
    ensures Correspond(OwnersOf(a), OwnersOf(b)) && Correspond(OwnersOf(b), OwnersOf(a))
  {
    hide Reordered, OwnersOf;
    ReorderedMembers(a.workloads, b.workloads, SameWorkload);
    ReorderedMembers(a.replicaSets, b.replicaSets, SameReplicaSet);
    assert forall w, v :: SameWorkload(w, v) ==> SameWorkload(v, w);
    assert forall x, y :: SameReplicaSet(x, y) ==> SameReplicaSet(y, x);
    hide SameWorkload, SameReplicaSet;
    OwnersFollow(a, b);
    OwnersFollow(b, a);
  }

  lemma WorkloadIsListed(s: Snapshot, w: KubeWorkload)
    requires w in s.workloads
    ensures WorkloadObject("stream", w) in OwnersOf(s)
  {
    hide WorkloadID;
    var i :| 0 <= i < |s.workloads| && s.workloads[i] == w;
    assert OwnersOf(s)[i] == WorkloadObject("stream", w);
  }

  lemma ReplicaSetIsListed(s: Snapshot, x: KubeReplicaSet)
    requires x in s.replicaSets
    ensures ReplicaSetObject(x) in OwnersOf(s)
  {
    var i :| 0 <= i < |s.replicaSets| && s.replicaSets[i] == x;
    assert OwnersOf(s)[|s.workloads| + i] == ReplicaSetObject(x);
  }

  lemma SameKeys(o: OwnerObject, p: OwnerObject)
    requires OwnerReach.SameButOrder(o, p)
    ensures RefKeys(o) == RefKeys(p) && UIDKeys(o) == UIDKeys(p)
  {
  }

  lemma MapFollows(m: map<string, OwnerObject>, n: map<string, OwnerObject>, a: seq<OwnerObject>, b: seq<OwnerObject>,
                   keys: OwnerObject -> set<string>, k: string)
    requires Holds(m, a, keys) && Holds(n, b, keys) && Correspond(a, b) && k in m
    requires forall o, p | OwnerReach.SameButOrder(o, p) :: keys(o) == keys(p)
    ensures k in n && OwnerReach.SameButOrder(m[k], n[k])
  {
    hide OwnerReach.SameButOrder;
    var o :| o in a && k in keys(o);
    var p :| p in b && OwnerReach.SameButOrder(o, p);
    assert k in keys(p);
  }

  lemma MapsMatch(m: map<string, OwnerObject>, n: map<string, OwnerObject>, a: seq<OwnerObject>, b: seq<OwnerObject>,
                  keys: OwnerObject -> set<string>)
    requires Holds(m, a, keys) && Holds(n, b, keys) && Correspond(a, b) && Correspond(b, a)
    requires forall o, p | OwnerReach.SameButOrder(o, p) :: keys(o) == keys(p)
    ensures SameMap(m, n)
  {
    hide OwnerReach.SameButOrder, Holds, Correspond;
    forall k | k in m { MapFollows(m, n, a, b, keys, k); }
    forall k | k in n { MapFollows(n, m, b, a, keys, k); }
  }

  lemma CorrespondingResolvers(a: Snapshot, b: Snapshot)
    requires Correspond(OwnersOf(a), OwnersOf(b)) && Correspond(OwnersOf(b), OwnersOf(a))
    requires DistinctOwners(OwnersOf(a)) && DistinctOwners(OwnersOf(b))
    ensures SameResolver(StreamResolver(a), StreamResolver(b))
  {
    hide DistinctOwners, RefKeys, UIDKeys, AddAll, Correspond, OwnerReach.SameButOrder, SameMap, Holds, OwnerObjects;
    ResolverHoldsAll(OwnersOf(a));
    ResolverHoldsAll(OwnersOf(b));
    forall o, p | OwnerReach.SameButOrder(o, p) { SameKeys(o, p); }
    MapsMatch(StreamResolver(a).byRef, StreamResolver(b).byRef, OwnersOf(a), OwnersOf(b), RefKeys);
    MapsMatch(StreamResolver(a).byUID, StreamResolver(b).byUID, OwnersOf(a), OwnersOf(b), UIDKeys);
  }

  lemma ResolversMatch(a: Snapshot, b: Snapshot)
    requires SameButOrder(a, b) && DistinctOwners(OwnersOf(a)) && DistinctOwners(OwnersOf(b))
    ensures SameResolver(StreamResolver(a), StreamResolver(b))
  {
    hide DistinctOwners, Correspond, OwnersOf, SameResolver, StreamResolver, Reordered;
    OwnersCorrespond(a, b);
    CorrespondingResolvers(a, b);
  }

  lemma ResolversIdentify(s: Snapshot)
    requires DistinctOwners(OwnersOf(s))
    ensures ToldApart(StreamResolver(s)) && TargetsIdentify(StreamResolver(s))
  {
    ObjectsComeFromTheLists(OwnersOf(s));
    hide ToldApart, AddAll, RefKeys, UIDKeys, SeenKey, OwnerObjects, TargetKey;
    var r := StreamResolver(s);
    forall a, b | a in r.Objects() && b in r.Objects() && Confusable(a, b)
      ensures a == b
    {
      assert a in OwnersOf(s) && b in OwnersOf(s);
    }
    KeysTellApart(r);
  }

  // ---- Fingerprints of snapshots ----

  lemma PartsForgetOrder(r: Resolver, q: Resolver, x: KubeReplicaSet, y: KubeReplicaSet)
    requires SameReplicaSet(x, y) && SameResolver(r, q) && ToldApart(r) && ToldApart(q) && TargetsIdentify(r)
    ensures ReplicaSetPartF(r)(x) == ReplicaSetPartF(q)(y)
  {
    hide ResolveReferences, SameResolver, ToldApart, TargetsIdentify, ReplicaSetFingerprint;
    ResolutionForgetsOrder(r, q, x.meta.namespace, x.ownerReferences, y.ownerReferences);
    ReplicaSetFingerprintForgetsOrder(x, y);
  }

  lemma ContributionsForgetOrder(a: Snapshot, b: Snapshot)
    requires SameButOrder(a, b) && DistinctOwners(OwnersOf(a)) && DistinctOwners(OwnersOf(b))
    ensures multiset(Contributions(a)) == multiset(Contributions(b))
  {
    hide SameResolver, ToldApart, TargetsIdentify, ReplicaSetPartF, WorkloadFingerprint, StreamResolver, OwnersOf, DistinctOwners,
         Reordered, Flat;
    ResolversMatch(a, b);
    ResolversIdentify(a);
    ResolversIdentify(b);
    var r, q := StreamResolver(a), StreamResolver(b);
    forall x, y | SameWorkload(x, y)
      ensures WorkloadPartF()(x) == WorkloadPartF()(y)
    {
      WorkloadFingerprintForgetsOrder(x, y);
    }
    ReorderedFlat(a.workloads, b.workloads, SameWorkload, WorkloadPartF(), WorkloadPartF());
    forall x, y | SameReplicaSet(x, y) { PartsForgetOrder(r, q, x, y); }
    ReorderedFlat(a.replicaSets, b.replicaSets, SameReplicaSet, ReplicaSetPartF(r), ReplicaSetPartF(q));
  }

  lemma {:induction false} AtCounts(cs: seq<Contribution>, key: string, fingerprint: string)
    ensures multiset(At(cs, key))[fingerprint] == multiset(cs)[Contribution(key, fingerprint)]
  {
    if cs != [] {
      AtCounts(cs[..|cs| - 1], key, fingerprint);
      assert cs == cs[..|cs| - 1] + [cs[|cs| - 1]];
    }
  }

  lemma AtForgetsOrder(cs: seq<Contribution>, ds: seq<Contribution>, key: string)
    requires multiset(cs) == multiset(ds)
    ensures multiset(At(cs, key)) == multiset(At(ds, key))
  {
    forall f
      ensures multiset(At(cs, key))[f] == multiset(At(ds, key))[f]
    {
      AtCounts(cs, key, f);
      AtCounts(ds, key, f);
    }
  }

  lemma GroupsForgetOrder(cs: seq<Contribution>, ds: seq<Contribution>)
    requires multiset(cs) == multiset(ds)
    ensures GroupedRefs(cs) == GroupedRefs(ds)
  {
    SameElements(cs, ds);
    assert KeysOf(cs) == KeysOf(ds);
    var keys := SortBy(InOrder(KeysOf(cs)), CutKey());
    forall key | key in keys
      ensures GroupF(cs)(key) == GroupF(ds)(key)
    {
      AtForgetsOrder(cs, ds, key);
      SortedJoinForgetsOrder(At(cs, key), At(ds, key), "|");
    }
    hide GroupF, Flat;
    SameFlat(keys, GroupF(cs), GroupF(ds));
  }

  lemma JoinedForgetsOrder(xs: seq<Ref>, ys: seq<Ref>)
    requires multiset(xs) == multiset(ys)
    ensures SortedJoin(Flat(xs, FingerprintF()), "|") == SortedJoin(Flat(ys, FingerprintF()), "|")
  {
    PermutedFlat(xs, ys, FingerprintF());
    SortedJoinForgetsOrder(Flat(xs, FingerprintF()), Flat(ys, FingerprintF()), "|");
  }

  lemma PodRefsForgetOrder(a: Snapshot, b: Snapshot)
    requires Reordered(a.pods, b.pods, SamePod)
    ensures multiset(Flat(a.pods, PodRefF())) == multiset(Flat(b.pods, PodRefF()))
  {
    hide PodFingerprint, Reordered, Flat;
    forall x, y | SamePod(x, y)
      ensures PodRefF()(x) == PodRefF()(y)
    {
      PodFingerprintForgetsOrder(x, y);
    }
    ReorderedFlat(a.pods, b.pods, SamePod, PodRefF(), PodRefF());
  }

  lemma StorageRefsForgetOrder(a: Snapshot, b: Snapshot)
    requires SameButOrder(a, b)
    ensures multiset(StorageRefs(a)) == multiset(StorageRefs(b))
  {
    PermutedFlat(a.pvcs, b.pvcs, PVCRefF());
    PermutedFlat(a.pvs, b.pvs, PVRefF());
    PermutedFlat(a.storageClasses, b.storageClasses, StorageClassRefF());
    PermutedFlat(a.csiDrivers, b.csiDrivers, CSIDriverRefF());
    hide Flat, SameButOrder, PVCRefF, PVRefF, StorageClassRefF, CSIDriverRefF;
  }

  lemma BindingRefsForgetOrder(a: Snapshot, b: Snapshot)
    requires Reordered(a.roleBindings, b.roleBindings, SameBinding) && Reordered(a.clusterRoleBindings, b.clusterRoleBindings, SameBinding)
    ensures multiset(Flat(a.roleBindings, RoleBindingRefF())) == multiset(Flat(b.roleBindings, RoleBindingRefF()))
    ensures multiset(Flat(a.clusterRoleBindings, ClusterRoleBindingRefF())) == multiset(Flat(b.clusterRoleBindings, ClusterRoleBindingRefF()))
  {
    hide RoleBindingFingerprint, ClusterRoleBindingFingerprint, Reordered, Flat, Subjects;
    forall x, y | SameBinding(x, y)
      ensures RoleBindingRefF()(x) == RoleBindingRefF()(y) && ClusterRoleBindingRefF()(x) == ClusterRoleBindingRefF()(y)
    {
      BindingFingerprintsForgetOrder(x, y);
    }
    ReorderedFlat(a.roleBindings, b.roleBindings, SameBinding, RoleBindingRefF(), RoleBindingRefF());
    ReorderedFlat(a.clusterRoleBindings, b.clusterRoleBindings, SameBinding, ClusterRoleBindingRefF(), ClusterRoleBindingRefF());
  }

  lemma IdentityRefsForgetOrder(a: Snapshot, b: Snapshot)
    requires SameButOrder(a, b)
    ensures multiset(IdentityRefs(a)) == multiset(IdentityRefs(b))
  {
    hide Reordered, Flat, ServiceAccountRefF, RoleBindingRefF, ClusterRoleBindingRefF;
    PermutedFlat(a.serviceAccounts, b.serviceAccounts, ServiceAccountRefF());
    BindingRefsForgetOrder(a, b);
  }

  lemma RefsForgetOrder(a: Snapshot, b: Snapshot, c: Category)
    requires SameButOrder(a, b) && DistinctOwners(OwnersOf(a)) && DistinctOwners(OwnersOf(b))
    ensures multiset(RefsOf(a, c)) == multiset(RefsOf(b, c))
  {
    hide Reordered, Flat, GroupedRefs, Contributions, StorageRefs, IdentityRefs, DistinctOwners, OwnersOf;
    match c
    case Workloads =>
      ContributionsForgetOrder(a, b);
      GroupsForgetOrder(Contributions(a), Contributions(b));
    case Pods => PodRefsForgetOrder(a, b);
    case Services => PermutedFlat(a.services, b.services, ServiceRefF());
    case Storage => StorageRefsForgetOrder(a, b);
    case Events => PermutedFlat(a.events, b.events, EventRefF());
    case Identities => IdentityRefsForgetOrder(a, b);
  }

  /** Reordering lists, owner references, image and volume lists or subjects changes no fingerprint. */
  lemma FingerprintsForgetOrder(a: Snapshot, b: Snapshot)
    requires SameButOrder(a, b) && DistinctOwners(OwnersOf(a)) && DistinctOwners(OwnersOf(b))
    ensures forall c :: Joined(a, c) == Joined(b, c)
    ensures TotalInput(a) == TotalInput(b)
  {
    hide SameButOrder, DistinctOwners, OwnersOf, RefsOf, SortedJoin;
    forall c
      ensures Joined(a, c) == Joined(b, c)
    {
      RefsForgetOrder(a, b, c);
      JoinedForgetsOrder(RefsOf(a, c), RefsOf(b, c));
    }
    hide Joined;
    SameFlat(CATEGORIES, CategoryInputF(a), CategoryInputF(b));
  }
}
