/** What a reference names among the listed workloads and replica sets, and what a chain of references leads to. */
module OwnerLookup {
  import opened Identity
  import opened Strings
  import opened Resources
  import opened OwnerChain
  import opened OwnerReach

  /** The last of the listed objects that satisfy the condition. */
  ghost predicate LastOf(objs: seq<OwnerObject>, b: OwnerObject, p: OwnerObject -> bool) {
    exists i | 0 <= i < |objs| :: objs[i] == b && p(b) && forall j | i < j < |objs| :: !p(objs[j])
  }

  ghost predicate NoneOf(objs: seq<OwnerObject>, p: OwnerObject -> bool) {
    forall o | o in objs :: !p(o)
  }

  function ByUID(namespace: string, ref: OwnerReference): OwnerObject -> bool {
    (o: OwnerObject) => ref.uid != "" && o.namespace == namespace && o.kind == ref.kind && o.uid == ref.uid
  }

  function ByVersion(namespace: string, ref: OwnerReference): OwnerObject -> bool {
    (o: OwnerObject) =>
      ref.apiVersion != "" && o.namespace == namespace && o.apiVersion == ref.apiVersion && o.kind == ref.kind && o.name == ref.name
  }

  function ByName(namespace: string, ref: OwnerReference): OwnerObject -> bool {
    (o: OwnerObject) => o.namespace == namespace && o.kind == ref.kind && o.name == ref.name
  }

  /** A reference names the object of its kind and UID in the namespace, else that of its version, kind and name, else that of its kind
      and name; of several the last one listed. */
  ghost predicate Names(objs: seq<OwnerObject>, namespace: string, ref: OwnerReference, b: OwnerObject) {
    || LastOf(objs, b, ByUID(namespace, ref))
    || (NoneOf(objs, ByUID(namespace, ref)) && LastOf(objs, b, ByVersion(namespace, ref)))
    || (NoneOf(objs, ByUID(namespace, ref)) && NoneOf(objs, ByVersion(namespace, ref)) && LastOf(objs, b, ByName(namespace, ref)))
  }

  // ---- What the two maps hold ----

  predicate HasUIDKey(o: OwnerObject, k: string) {
    o.uid != "" && UIDKey(o.namespace, o.kind, o.uid) == k
  }

  predicate HasRefKey(o: OwnerObject, k: string) {
    RefKey(o.namespace, o.kind, o.name) == k || (o.apiVersion != "" && VersionRefKey(o.namespace, o.apiVersion, o.kind, o.name) == k)
  }

  function UnderUID(k: string): OwnerObject -> bool { (o: OwnerObject) => HasUIDKey(o, k) }
  function UnderRef(k: string): OwnerObject -> bool { (o: OwnerObject) => HasRefKey(o, k) }

  function Built(objs: seq<OwnerObject>): Resolver { AddAll(Resolver(map[], map[]), objs) }

  lemma LastOfMore(init: seq<OwnerObject>, last: OwnerObject, b: OwnerObject, p: OwnerObject -> bool)
    ensures LastOf(init + [last], b, p) <==> if p(last) then b == last else LastOf(init, b, p)
    ensures NoneOf(init + [last], p) <==> NoneOf(init, p) && !p(last)
  {
    var objs := init + [last];
    assert objs[|init|] == last;
    if !p(last) && LastOf(init, b, p) {
      var i :| 0 <= i < |init| && init[i] == b && p(b) && forall j | i < j < |init| :: !p(init[j]);
      assert objs[i] == b;
    }
    if !p(last) && LastOf(objs, b, p) {
      var i :| 0 <= i < |objs| && objs[i] == b && p(b) && forall j | i < j < |objs| :: !p(objs[j]);
      assert init[i] == b;
      forall j | i < j < |init|
        ensures !p(init[j])
      {
        assert objs[j] == init[j];
      }
    }
  }

  /** The map holds under each key the last object listed with the key. */
  ghost predicate Holds(m: map<string, OwnerObject>, objs: seq<OwnerObject>, k: string, p: OwnerObject -> bool) {
    (k !in m <==> NoneOf(objs, p)) && forall b :: LastOf(objs, b, p) <==> k in m && m[k] == b
  }

  lemma HoldsMore(m: map<string, OwnerObject>, m': map<string, OwnerObject>, init: seq<OwnerObject>, last: OwnerObject, k: string, p: OwnerObject -> bool)
    requires Holds(m, init, k, p)
    requires if p(last) then k in m' && m'[k] == last else (k in m' <==> k in m) && (k in m ==> m'[k] == m[k])
    ensures Holds(m', init + [last], k, p)
  {
    hide LastOf, NoneOf;
    LastOfMore(init, last, last, p);
    forall b { LastOfMore(init, last, b, p); }
  }

  lemma {:induction false} MapsHoldTheLast(objs: seq<OwnerObject>, k: string)
    ensures Holds(Built(objs).byUID, objs, k, UnderUID(k)) && Holds(Built(objs).byRef, objs, k, UnderRef(k))
  {
    if objs != [] {
      var init, last := objs[..|objs| - 1], objs[|objs| - 1];
      MapsHoldTheLast(init, k);
      assert objs == init + [last];
      hide Holds, RefKey, VersionRefKey, UIDKey;
      var r, r' := Built(init), Built(objs);
      assert r' == r.Add(last);
      HoldsMore(r.byUID, r'.byUID, init, last, k, UnderUID(k));
      HoldsMore(r.byRef, r'.byRef, init, last, k, UnderRef(k));
    }
  }

  // ---- Reading the keys ----

  /** Namespaces, kinds and names as Kubernetes has them. */
  predicate PlainAddress(namespace: string, kind: string, name: string) {
    '/' !in namespace && '/' !in kind && '/' !in name
  }

  predicate PlainObject(o: OwnerObject) { PlainAddress(o.namespace, o.kind, o.name) }

  lemma UIDKeysRead(o: OwnerObject, namespace: string, ref: OwnerReference)
    requires PlainObject(o) && PlainAddress(namespace, ref.kind, ref.name) && ref.uid != ""
    ensures HasUIDKey(o, UIDKey(namespace, ref.kind, ref.uid)) <==> ByUID(namespace, ref)(o)
  {
    if HasUIDKey(o, UIDKey(namespace, ref.kind, ref.uid)) {
      ThreeParts(o.namespace, o.kind, o.uid, namespace, ref.kind, ref.uid);
    }
  }

  lemma ThreeParts(a1: string, a2: string, a3: string, b1: string, b2: string, b3: string)
    requires '/' !in a1 && '/' !in b1 && '/' !in a2 && '/' !in b2
    requires a1 + "/" + a2 + "/" + a3 == b1 + "/" + b2 + "/" + b3
    ensures a1 == b1 && a2 == b2 && a3 == b3
  {
    var x, y := a2 + "/" + a3, b2 + "/" + b3;
    assert a1 + "/" + x == a1 + "/" + a2 + "/" + a3 && b1 + "/" + y == b1 + "/" + b2 + "/" + b3;
    CutIsUnique(a1, b1, x, y, '/');
    CutIsUnique(a2, b2, a3, b3, '/');
  }

  lemma VersionedParts(n1: string, v1: string, k1: string, m1: string, n2: string, v2: string, k2: string, m2: string)
    requires PlainAddress(n1, k1, m1) && PlainAddress(n2, k2, m2) && VersionRefKey(n1, v1, k1, m1) == VersionRefKey(n2, v2, k2, m2)
    ensures n1 == n2 && v1 == v2 && k1 == k2 && m1 == m2
  {
    var x, y := n1 + "/" + v1, n2 + "/" + v2;
    CutLastIsUnique(x + "/" + k1, y + "/" + k2, m1, m2, '/');
    CutLastIsUnique(x, y, k1, k2, '/');
    CutIsUnique(n1, n2, v1, v2, '/');
  }

  lemma VersionsShow(n1: string, k1: string, m1: string, n2: string, v2: string, k2: string, m2: string)
    requires PlainAddress(n1, k1, m1) && PlainAddress(n2, k2, m2)
    ensures RefKey(n1, k1, m1) != VersionRefKey(n2, v2, k2, m2)
  {
    assert '/' in n2 + "/" + v2 by {
      assert (n2 + "/" + v2)[|n2|] == '/';
    }
    if RefKey(n1, k1, m1) == VersionRefKey(n2, v2, k2, m2) {
      CutLastIsUnique(n1 + "/" + k1, n2 + "/" + v2 + "/" + k2, m1, m2, '/');
      CutLastIsUnique(n1, n2 + "/" + v2, k1, k2, '/');
    }
  }

  lemma RefKeysRead(o: OwnerObject, namespace: string, ref: OwnerReference)
    requires PlainObject(o) && PlainAddress(namespace, ref.kind, ref.name)
    ensures HasRefKey(o, RefKey(namespace, ref.kind, ref.name)) <==> ByName(namespace, ref)(o)
    ensures ref.apiVersion != "" ==>
      (HasRefKey(o, VersionRefKey(namespace, ref.apiVersion, ref.kind, ref.name)) <==> ByVersion(namespace, ref)(o))
  {
    VersionsShow(o.namespace, o.kind, o.name, namespace, ref.apiVersion, ref.kind, ref.name);
    VersionsShow(namespace, ref.kind, ref.name, o.namespace, o.apiVersion, o.kind, o.name);
    if RefKey(o.namespace, o.kind, o.name) == RefKey(namespace, ref.kind, ref.name) {
      ThreeParts(o.namespace, o.kind, o.name, namespace, ref.kind, ref.name);
    }
    hide RefKey;
    if VersionRefKey(o.namespace, o.apiVersion, o.kind, o.name) == VersionRefKey(namespace, ref.apiVersion, ref.kind, ref.name) {
      VersionedParts(o.namespace, o.apiVersion, o.kind, o.name, namespace, ref.apiVersion, ref.kind, ref.name);
    }
  }

  lemma SameCondition(objs: seq<OwnerObject>, p: OwnerObject -> bool, q: OwnerObject -> bool)
    requires forall o | o in objs :: p(o) <==> q(o)
    ensures (NoneOf(objs, p) <==> NoneOf(objs, q)) && forall b :: LastOf(objs, b, p) <==> LastOf(objs, b, q)
  {
  }

  /** The lookup finds exactly what the reference names. */
  lemma FindsWhatIsNamed(objs: seq<OwnerObject>, namespace: string, ref: OwnerReference, b: OwnerObject)
    requires (forall o | o in objs :: PlainObject(o)) && PlainAddress(namespace, ref.kind, ref.name)
    ensures Built(objs).Find(namespace, ref) == Found(b) <==> Names(objs, namespace, ref, b)
  {
    var uid, version, name := UIDKey(namespace, ref.kind, ref.uid), VersionRefKey(namespace, ref.apiVersion, ref.kind, ref.name),
                              RefKey(namespace, ref.kind, ref.name);
    MapsHoldTheLast(objs, uid);
    MapsHoldTheLast(objs, version);
    MapsHoldTheLast(objs, name);
    forall o | o in objs
      ensures ref.uid != "" ==> (UnderUID(uid)(o) <==> ByUID(namespace, ref)(o))
      ensures UnderRef(name)(o) <==> ByName(namespace, ref)(o)
      ensures ref.apiVersion != "" ==> (UnderRef(version)(o) <==> ByVersion(namespace, ref)(o))
    {
      if ref.uid != "" { UIDKeysRead(o, namespace, ref); }
      RefKeysRead(o, namespace, ref);
    }
    if ref.uid == "" {
      assert forall o :: !ByUID(namespace, ref)(o);
    } else {
      SameCondition(objs, UnderUID(uid), ByUID(namespace, ref));
    }
    if ref.apiVersion == "" {
      assert forall o :: !ByVersion(namespace, ref)(o);
    } else {
      SameCondition(objs, UnderRef(version), ByVersion(namespace, ref));
    }
    SameCondition(objs, UnderRef(name), ByName(namespace, ref));
    hide RefKey, VersionRefKey, UIDKey, HasUIDKey, HasRefKey, Built, ByName;
  }

  // ---- Chains of owners ----

  /** Some controlling reference of the list names the object. */
  ghost predicate OwnedBy(objs: seq<OwnerObject>, namespace: string, refs: seq<OwnerReference>, b: OwnerObject) {
    exists ref | IsControlling(refs, ref) :: Names(objs, namespace, ref, b)
  }

  /** A chain of owners of the given length ends at `b`. */
  ghost predicate ChainTo(objs: seq<OwnerObject>, namespace: string, refs: seq<OwnerReference>, b: OwnerObject, n: nat)
    decreases n
  {
    if n == 0 then OwnedBy(objs, namespace, refs, b)
    else exists m :: OwnedBy(objs, namespace, refs, m) && ChainTo(objs, m.namespace, m.ownerReferences, b, n - 1)
  }

  predicate PlainReferences(refs: seq<OwnerReference>) {
    forall ref | ref in refs :: '/' !in ref.kind && '/' !in ref.name
  }

  ghost predicate PlainOwners(objs: seq<OwnerObject>) {
    forall o | o in objs :: PlainObject(o) && PlainReferences(o.ownerReferences)
  }

  lemma RefersIsOwned(objs: seq<OwnerObject>, namespace: string, refs: seq<OwnerReference>, b: OwnerObject)
    requires PlainOwners(objs) && '/' !in namespace && PlainReferences(refs)
    ensures Refers(Built(objs), namespace, refs, b) <==> OwnedBy(objs, namespace, refs, b)
  {
    hide Resolver.Find, Built, Names;
    forall ref | IsControlling(refs, ref) { FindsWhatIsNamed(objs, namespace, ref, b); }
  }

  lemma OwnedIsListed(objs: seq<OwnerObject>, namespace: string, refs: seq<OwnerReference>, b: OwnerObject)
    requires OwnedBy(objs, namespace, refs, b)
    ensures b in objs
  {
  }

  lemma {:induction false} ChainIsSteps(objs: seq<OwnerObject>, namespace: string, refs: seq<OwnerReference>, b: OwnerObject, n: nat)
    requires PlainOwners(objs) && '/' !in namespace && PlainReferences(refs)
    ensures ChainTo(objs, namespace, refs, b, n) <==> exists a :: Refers(Built(objs), namespace, refs, a) && Steps(Built(objs), a, b, n)
    decreases n
  {
    hide Refers, OwnedBy;
    var r := Built(objs);
    forall a { RefersIsOwned(objs, namespace, refs, a); }
    forall m | OwnedBy(objs, namespace, refs, m)
      ensures n > 0 ==> (ChainTo(objs, m.namespace, m.ownerReferences, b, n - 1) <==> Steps(r, m, b, n))
    {
      OwnedIsListed(objs, namespace, refs, m);
      if n > 0 {
        ChainIsSteps(objs, m.namespace, m.ownerReferences, b, n - 1);
        assert forall a :: Succ(r, m, a) <==> Refers(r, m.namespace, m.ownerReferences, a);
      }
    }
    hide PlainReferences, PlainObject;
    if n == 0 {
      assert forall a :: Steps(r, a, b, 0) <==> a == b;
    }
  }

  /** The workloads a reference list leads to in the resolver are those at the ends of its chains of owners. */
  lemma OwnersAreChainEnds(objs: seq<OwnerObject>, namespace: string, refs: seq<OwnerReference>, id: CanonicalID)
    requires PlainOwners(objs) && '/' !in namespace && PlainReferences(refs)
    ensures OwnsID(Built(objs), namespace, refs, id) <==>
      exists b, n: nat :: ChainTo(objs, namespace, refs, b, n) && b.workload && b.target.id == id
  {
    hide Refers, Steps, ChainTo, PlainReferences, PlainOwners, Built;
    forall b, n: nat { ChainIsSteps(objs, namespace, refs, b, n); }
    var r := Built(objs);
    if OwnsID(r, namespace, refs, id) {
      var t :| Owns(r, namespace, refs, t) && t.id == id;
      var b :| LeadsTo(r, namespace, refs, b) && b.workload && b.target == t;
      var a :| Refers(r, namespace, refs, a) && Reachable(r, a, b);
      var n: nat :| Steps(r, a, b, n);
      assert ChainTo(objs, namespace, refs, b, n);
    }
    if b, n: nat :| ChainTo(objs, namespace, refs, b, n) && b.workload && b.target.id == id {
      var a :| Refers(r, namespace, refs, a) && Steps(r, a, b, n);
      assert Reachable(r, a, b) && LeadsTo(r, namespace, refs, b);
      assert Owns(r, namespace, refs, b.target);
    }
  }

  // ---- The objects ----

  /** The object stands for the workload. */
  ghost predicate StandsForWorkload(cluster: Text, o: OwnerObject, w: KubeWorkload) {
    && o.workload && o.target.id == WorkloadID(cluster, w)
    && o.namespace == o.target.namespace == w.meta.namespace && o.kind == o.target.kind == w.controllerKind
    && o.name == o.target.name == w.meta.name && o.uid == o.target.uid == w.meta.uid && o.apiVersion == o.target.apiVersion == w.apiVersion
    && o.ownerReferences == w.ownerReferences
  }

  /** The object stands for the replica set, which has no version to be named by. */
  ghost predicate StandsForReplicaSet(o: OwnerObject, x: KubeReplicaSet) {
    && !o.workload && o.kind == "ReplicaSet" && o.apiVersion == ""
    && o.namespace == x.meta.namespace && o.name == x.meta.name && o.uid == x.meta.uid && o.ownerReferences == x.ownerReferences
  }

  /** One object for each listed workload and replica set, in that order, and no others. */
  lemma ObjectsStandForTheListed(cluster: Text, workloads: seq<KubeWorkload>, replicaSets: seq<KubeReplicaSet>)
    ensures var objs := OwnerObjects(cluster, workloads, replicaSets);
            && |objs| == |workloads| + |replicaSets|
            && (forall i | 0 <= i < |workloads| :: StandsForWorkload(cluster, objs[i], workloads[i]))
            && (forall i | 0 <= i < |replicaSets| :: StandsForReplicaSet(objs[|workloads| + i], replicaSets[i]))
  {
    hide WorkloadID;
  }
}
