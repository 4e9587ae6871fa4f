/** Which lists of owners make resolution miss one: exactly those on which a walk meets two owners under one key. */
module OwnerLoss {
  import opened Identity
  import opened Sorting
  import opened GraphModel
  import opened Resources
  import opened OwnerChain
  import opened OwnerReach

  /** Every list of references is resolved to all the workloads it leads to. */
  ghost predicate ResolvesCompletely(r: Resolver) {
    forall namespace, refs, id | OwnsID(r, namespace, refs, id) :: HasID(ResolveReferences(r, namespace, refs), id)
  }

  // ---- Every object can be referred to ----

  lemma {:induction false} StoredUnderOwnKeys(objs: seq<OwnerObject>)
    ensures UnderOwnKeys(AddAll(Resolver(map[], map[]), objs))
  {
    if objs != [] {
      StoredUnderOwnKeys(objs[..|objs| - 1]);
      AddedUnderOwnKeys(AddAll(Resolver(map[], map[]), objs[..|objs| - 1]), objs[|objs| - 1]);
    }
  }

  ghost predicate UnderOwnKeys(r: Resolver) {
    && (forall k | k in r.byUID :: r.byUID[k].uid != "" && k == UIDKey(r.byUID[k].namespace, r.byUID[k].kind, r.byUID[k].uid))
    && (forall k | k in r.byRef :: IsRefKeyOf(k, r.byRef[k]))
  }

  lemma AddedUnderOwnKeys(r: Resolver, o: OwnerObject)
    requires UnderOwnKeys(r)
    ensures UnderOwnKeys(r.Add(o))
  {
    hide RefKey, VersionRefKey, UIDKey;
  }

  predicate IsRefKeyOf(k: string, o: OwnerObject) {
    k == RefKey(o.namespace, o.kind, o.name) || (o.apiVersion != "" && k == VersionRefKey(o.namespace, o.apiVersion, o.kind, o.name))
  }

  lemma SomeReferenceFinds(objs: seq<OwnerObject>, o: OwnerObject) returns (ref: OwnerReference)
    requires o in AddAll(Resolver(map[], map[]), objs).Objects()
    ensures AddAll(Resolver(map[], map[]), objs).Find(o.namespace, ref) == Found(o)
  {
    var r := AddAll(Resolver(map[], map[]), objs);
    StoredUnderOwnKeys(objs);
    hide RefKey, VersionRefKey, UIDKey, AddAll;
    if o in r.byUID.Values {
      ref := OwnerReference("", o.kind, "", o.uid, true);
    } else {
      var k :| k in r.byRef && r.byRef[k] == o;
      if k == RefKey(o.namespace, o.kind, o.name) {
        ref := OwnerReference("", o.kind, o.name, "", true);
      } else {
        ref := OwnerReference(o.apiVersion, o.kind, o.name, "", true);
      }
    }
  }

  // ---- Two owners under one key ----

  lemma OneController(ref: OwnerReference)
    ensures ControllingReferences([ref]) == [ref]
  {
    assert [ref][1..] == [] && Controllers([]) == [];
    assert Controllers([ref]) == if ref.controller then [ref] + Controllers([ref][1..]) else Controllers([ref][1..]);
  }

  /** A single reference resolves to what one walk finds. */
  lemma SingleReference(r: Resolver, namespace: string, ref: OwnerReference, start: OwnerObject)
    requires r.Find(namespace, ref) == Found(start)
    ensures forall id :: HasID(ResolveReferences(r, namespace, [ref]), id) <==> HasID(ResolveObject(r, start, {}).0, id)
  {
    OneController(ref);
    hide ControllingReferences, ResolveObject, Resolver.Objects, HasID, SortBy, RefKey, UIDKey, VersionRefKey;
    var walked := ResolveObject(r, start, {}).0;
    assert [ref][1..] == [] && Gather(r, namespace, [], AppendNew([], walked)) == AppendNew([], walked);
    var gathered := Gather(r, namespace, [ref], []);
    assert gathered == AppendNew([], walked);
    AppendNewKeepsIDs([], walked);
    assert forall id :: !HasID([], id) by { NoneHasID(); }
    SortKeeps(gathered, TargetKey());
    SameElements(gathered, SortBy(gathered, TargetKey()));
    PermutedIDs(gathered, SortBy(gathered, TargetKey()));
  }

  lemma NoneHasID()
    ensures forall id :: !HasID([], id)
  {
  }

  lemma ReferenceLeadsTo(r: Resolver, namespace: string, ref: OwnerReference, start: OwnerObject, o: OwnerObject)
    requires r.Find(namespace, ref) == Found(start) && Reachable(r, start, o)
    ensures LeadsTo(r, namespace, [ref], o)
  {
    OneController(ref);
    hide Resolver.Find, ControllingReferences, Reachable;
    assert ref in [ref];
    assert Refers(r, namespace, [ref], start);
  }

  /** No other object has the workload's identifier. */
  ghost predicate HasOwnID(r: Resolver, a: OwnerObject) {
    a.workload && forall o | o in r.Objects() && o.workload && o.target.id == a.target.id :: o == a
  }

  /** A walk that can reach two workloads under one key reports at most one of them. */
  lemma OneOfTwoIsLost(r: Resolver, namespace: string, ref: OwnerReference, start: OwnerObject, a: OwnerObject, b: OwnerObject)
    requires r.Find(namespace, ref) == Found(start) && a != b && SeenKey(a) == SeenKey(b)
    requires Reachable(r, start, a) && Reachable(r, start, b) && HasOwnID(r, a) && HasOwnID(r, b)
    ensures !(HasID(ResolveReferences(r, namespace, [ref]), a.target.id) && HasID(ResolveReferences(r, namespace, [ref]), b.target.id))
  {
    SingleReference(r, namespace, ref, start);
    var met := ObjectWalk(r, start, {});
    hide Resolver.Find, ResolveReferences, Reachable, SeenKey, Resolver.Objects, Closed, ResolveObject;
    var walked := ResolveObject(r, start, {}).0;
    if HasID(walked, a.target.id) && HasID(walked, b.target.id) {
      MetUnderOwnID(r, walked, met, ResolveObject(r, start, {}).1 - {}, a);
      MetUnderOwnID(r, walked, met, ResolveObject(r, start, {}).1 - {}, b);
    }
  }

  lemma MetUnderOwnID(r: Resolver, targets: seq<WorkloadTarget>, met: set<OwnerObject>, added: set<string>, a: OwnerObject)
    requires Visited(r, targets, met, added) && HasOwnID(r, a) && HasID(targets, a.target.id)
    ensures a in met
  {
    hide SeenKey;
    var t :| t in targets && t.id == a.target.id;
    var o :| o in met && o.workload && o.target == t;
  }

  // ---- Objects of any kind under one key ----

  /** From `start` every way to a workload with the identifier passes through `b`. */
  ghost predicate OnlyThrough(r: Resolver, start: OwnerObject, b: OwnerObject, id: CanonicalID) {
    forall o: OwnerObject | o.workload && o.target.id == id :: !ReachableIn(r, r.Objects() - {b}, start, o)
  }

  /** What hides behind an object that is not met is not reported. */
  lemma UnmetIsLost(r: Resolver, start: OwnerObject, targets: seq<WorkloadTarget>, met: set<OwnerObject>, added: set<string>, b: OwnerObject,
                    id: CanonicalID)
    requires Visited(r, targets, met, added) && b !in met && OnlyThrough(r, start, b, id)
    requires forall o | o in met :: ReachableIn(r, met, start, o)
    ensures !HasID(targets, id)
  {
    hide SeenKey, ReachableIn, Resolver.Objects;
    forall t | t in targets
      ensures t.id != id
    {
      var o :| o in met && o.workload && o.target == t;
      WiderReach(r, met, r.Objects() - {b}, start, o);
    }
  }

  /** Of two workloads behind different objects with one key, whatever these are and in whatever order, at most one is reported. */
  lemma OneOfTwoWaysIsLost(r: Resolver, namespace: string, ref: OwnerReference, start: OwnerObject, a: OwnerObject, b: OwnerObject,
                           behindA: CanonicalID, behindB: CanonicalID)
    requires r.Find(namespace, ref) == Found(start) && a != b && SeenKey(a) == SeenKey(b)
    requires OnlyThrough(r, start, a, behindA) && OnlyThrough(r, start, b, behindB)
    ensures !(HasID(ResolveReferences(r, namespace, [ref]), behindA) && HasID(ResolveReferences(r, namespace, [ref]), behindB))
  {
    SingleReference(r, namespace, ref, start);
    var met := ObjectWalk(r, start, {});
    var (walked, seen) := ResolveObject(r, start, {});
    assert !(a in met && b in met);
    hide Resolver.Find, ResolveReferences, SeenKey, Resolver.Objects, Closed, ResolveObject, Visited, OnlyThrough, HasID;
    if a !in met {
      UnmetIsLost(r, start, walked, met, seen - {}, a, behindA);
    } else {
      UnmetIsLost(r, start, walked, met, seen - {}, b, behindB);
    }
  }

  predicate IsFirstControlling(refs: seq<OwnerReference>, i: int) {
    0 <= i < |refs| && if exists x | x in refs :: x.controller then refs[i].controller && forall j | 0 <= j < i :: !refs[j].controller else i == 0
  }

  lemma {:induction false} FirstController(refs: seq<OwnerReference>, i: nat)
    requires i < |refs| && refs[i].controller && forall j | 0 <= j < i :: !refs[j].controller
    ensures Controllers(refs) != [] && Controllers(refs)[0] == refs[i]
  {
    if i > 0 {
      FirstController(refs[1..], i - 1);
    }
  }

  lemma FirstIsWalkedFirst(refs: seq<OwnerReference>, i: nat)
    requires IsFirstControlling(refs, i)
    ensures ControllingReferences(refs) != [] && ControllingReferences(refs)[0] == refs[i]
  {
    if exists x | x in refs :: x.controller {
      FirstController(refs, i);
    } else {
      ControllersAreMembers(refs);
    }
  }

  /** When the first controlling reference of `start` leads to one of two objects with one key, what lies behind the other alone is lost: any list
      of references that names both has an order in which this happens. */
  lemma FirstSeenHides(r: Resolver, namespace: string, ref: OwnerReference, start: OwnerObject, a: OwnerObject, b: OwnerObject, id: CanonicalID)
    requires r.Find(namespace, ref) == Found(start) && a != b && SeenKey(a) == SeenKey(b) != SeenKey(start)
    requires exists i :: IsFirstControlling(start.ownerReferences, i) && r.Find(start.namespace, start.ownerReferences[i]) == Found(a)
    requires OnlyThrough(r, start, b, id)
    ensures !HasID(ResolveReferences(r, namespace, [ref]), id)
  {
    SingleReference(r, namespace, ref, start);
    var met := StartsWith(r, start, a);
    var (walked, seen) := ResolveObject(r, start, {});
    assert b !in met;
    hide Resolver.Find, ResolveReferences, SeenKey, Resolver.Objects, ResolveObject, Visited, OnlyThrough, HasID;
    UnmetIsLost(r, start, walked, met, seen - {}, b, id);
  }

  /** A walk meets what the first reference leads to. */
  lemma StartsWith(r: Resolver, start: OwnerObject, a: OwnerObject) returns (met: set<OwnerObject>)
    requires start in r.Objects() && SeenKey(a) != SeenKey(start)
    requires exists i :: IsFirstControlling(start.ownerReferences, i) && r.Find(start.namespace, start.ownerReferences[i]) == Found(a)
    ensures var (targets, seen) := ResolveObject(r, start, {});
            a in met && Visited(r, targets, met, seen - {}) && forall o | o in met :: ReachableIn(r, met, start, o)
  {
    var i :| IsFirstControlling(start.ownerReferences, i) && r.Find(start.namespace, start.ownerReferences[i]) == Found(a);
    FirstIsWalkedFirst(start.ownerReferences, i);
    met := ObjectWalk(r, start, {});
    hide IsFirstControlling, ControllingReferences, Resolver.Find, ReachableIn, Visited, ResolveObject;
  }

  /** Some workload that `start` reaches it reaches through this object only. */
  ghost predicate Hides(r: Resolver, start: OwnerObject, a: OwnerObject) {
    exists o :: Reachable(r, start, o) && o.workload && OnlyThrough(r, start, a, o.target.id)
  }

  // ---- When nothing is missed ----

  /** Telling apart is enough, on every input. */
  lemma ToldApartResolvesCompletely(r: Resolver)
    requires ToldApart(r)
    ensures ResolvesCompletely(r)
  {
    hide ToldApart, OwnsID, HasID, ResolveReferences;
    forall namespace, refs, id | OwnsID(r, namespace, refs, id)
      ensures HasID(ResolveReferences(r, namespace, refs), id)
    {
      ResolvesExactlyOwners(r, namespace, refs);
    }
  }

  lemma OwnerIsReported(r: Resolver, namespace: string, ref: OwnerReference, start: OwnerObject, o: OwnerObject)
    requires ResolvesCompletely(r) && r.Find(namespace, ref) == Found(start) && Reachable(r, start, o) && o.workload
    ensures HasID(ResolveReferences(r, namespace, [ref]), o.target.id)
  {
    ReferenceLeadsTo(r, namespace, ref, start, o);
    hide Resolver.Find, Reachable, LeadsTo, ControllingReferences, ResolveReferences, HasID;
    assert Owns(r, namespace, [ref], o.target);
    assert OwnsID(r, namespace, [ref], o.target.id);
  }

  /** And so, on every input, must be two objects that both hide a workload. */
  lemma CompleteTellsHidersApart(objs: seq<OwnerObject>, start: OwnerObject, a: OwnerObject, b: OwnerObject)
    requires var r := AddAll(Resolver(map[], map[]), objs);
             ResolvesCompletely(r) && start in r.Objects() && SeenKey(a) == SeenKey(b) && Hides(r, start, a) && Hides(r, start, b)
    ensures a == b
  {
    var r := AddAll(Resolver(map[], map[]), objs);
    var ref := SomeReferenceFinds(objs, start);
    hide AddAll, Resolver.Find, Resolver.Objects, ResolvesCompletely, SeenKey, Reachable, ResolveReferences, HasID, OnlyThrough;
    var o :| Reachable(r, start, o) && o.workload && OnlyThrough(r, start, a, o.target.id);
    var p :| Reachable(r, start, p) && p.workload && OnlyThrough(r, start, b, p.target.id);
    OwnerIsReported(r, start.namespace, ref, start, o);
    OwnerIsReported(r, start.namespace, ref, start, p);
    if a != b {
      OneOfTwoWaysIsLost(r, start.namespace, ref, start, a, b, o.target.id, p.target.id);
    }
  }

  /** Where a walk may confuse two objects, each is the only way to some workload. */
  ghost predicate ConfusedHide(r: Resolver) {
    forall start, a, b | start in r.Objects() && Reachable(r, start, a) && Reachable(r, start, b) && a != b && SeenKey(a) == SeenKey(b) ::
      Hides(r, start, a) && Hides(r, start, b)
  }

  lemma ReachableIsInside(r: Resolver, a: OwnerObject, b: OwnerObject)
    requires a in r.Objects() && Reachable(r, a, b)
    ensures b in r.Objects()
  {
    var n: nat :| Steps(r, a, b, n);
    StepsStayInside(r, a, b, n);
  }

  /** Resolution misses no owner, whatever references it is asked about, exactly when no walk meets two objects under one key. */
  lemma CompleteExactlyWhenToldApart(cluster: Text, workloads: seq<KubeWorkload>, replicaSets: seq<KubeReplicaSet>)
    requires ConfusedHide(NewChainResolver(cluster, workloads, replicaSets))
    ensures var r := NewChainResolver(cluster, workloads, replicaSets); ResolvesCompletely(r) <==> ToldApart(r)
  {
    var objs := OwnerObjects(cluster, workloads, replicaSets);
    var r := NewChainResolver(cluster, workloads, replicaSets);
    hide ResolvesCompletely, Reachable, SeenKey, Resolver.Objects, OwnerObjects, Hides;
    if ToldApart(r) {
      ToldApartResolvesCompletely(r);
    }
    if ResolvesCompletely(r) {
      forall start, a, b | start in r.Objects() && Reachable(r, start, a) && Reachable(r, start, b) && SeenKey(a) == SeenKey(b)
        ensures a == b
      {
        if a != b {
          CompleteTellsHidersApart(objs, start, a, b);
        }
      }
    }
  }

  /** Workloads have identifiers of their own, and replica sets keys of their own. */
  ghost predicate OwnNames(objs: seq<OwnerObject>) {
    && (forall a, b | a in objs && b in objs && a.workload && b.workload && a.target.id == b.target.id :: a == b)
    && (forall a, b | a in objs && b in objs && !a.workload && SeenKey(a) == SeenKey(b) :: a == b)
  }

  /** A workload with an identifier of its own is the only way to itself. */
  lemma OwnIDsHide(r: Resolver, start: OwnerObject, a: OwnerObject)
    requires Reachable(r, start, a) && HasOwnID(r, a)
    ensures Hides(r, start, a)
  {
    hide Reachable, Resolver.Objects;
    forall o: OwnerObject | o.workload && o.target.id == a.target.id
      ensures !ReachableIn(r, r.Objects() - {a}, start, o)
    {
      if ReachableIn(r, r.Objects() - {a}, start, o) {
        EndsInside(r, r.Objects() - {a}, start, o);
      }
    }
  }

  lemma EndsInside(r: Resolver, inside: set<OwnerObject>, a: OwnerObject, b: OwnerObject)
    requires ReachableIn(r, inside, a, b)
    ensures b in inside
  {
    var n: nat :| StepsIn(r, inside, a, b, n);
    StepsEndInside(r, inside, a, b, n);
  }

  lemma {:induction false} StepsEndInside(r: Resolver, inside: set<OwnerObject>, a: OwnerObject, b: OwnerObject, n: nat)
    requires StepsIn(r, inside, a, b, n)
    ensures b in inside
    decreases n
  {
    if n > 0 {
      var m :| Succ(r, a, m) && StepsIn(r, inside, m, b, n - 1);
      StepsEndInside(r, inside, m, b, n - 1);
    }
  }

  /** So wherever names are in order, whatever may be confused hides a workload. */
  lemma OwnNamesHide(cluster: Text, workloads: seq<KubeWorkload>, replicaSets: seq<KubeReplicaSet>)
    requires OwnNames(OwnerObjects(cluster, workloads, replicaSets))
    ensures ConfusedHide(NewChainResolver(cluster, workloads, replicaSets))
  {
    var r := NewChainResolver(cluster, workloads, replicaSets);
    ObjectsComeFromTheLists(OwnerObjects(cluster, workloads, replicaSets));
    hide OwnerObjects, AddAll, Reachable, SeenKey, Resolver.Objects, Hides;
    forall start, a, b | start in r.Objects() && Reachable(r, start, a) && Reachable(r, start, b) && a != b && SeenKey(a) == SeenKey(b)
      ensures Hides(r, start, a) && Hides(r, start, b)
    {
      ReachableIsInside(r, start, a);
      ReachableIsInside(r, start, b);
      OwnIDsHide(r, start, a);
      OwnIDsHide(r, start, b);
    }
  }

  // ---- An owner that is missed ----

  // A workload listed without a UID whose name is the UID of the workload that controls it.
  const HERE := OwnerReference("", "Deployment", "shown", "", true)
  const UP := OwnerReference("", "Deployment", "hidden", "", true)
  const HIDDEN := KubeWorkload(Metadata("shown", "hidden", "n", map[]), "", "Deployment", 1, map[], [])
  const SHOWN := KubeWorkload(Metadata("", "shown", "n", map[]), "", "Deployment", 1, map[], [UP])

  function Pair(cluster: Text): Resolver { NewChainResolver(cluster, [HIDDEN, SHOWN], []) }

  lemma PairOfObjects(cluster: Text)
    ensures OwnerObjects(cluster, [HIDDEN, SHOWN], []) == [WorkloadObject(cluster, HIDDEN), WorkloadObject(cluster, SHOWN)]
    ensures Pair(cluster) == Resolver(map[], map[]).Add(WorkloadObject(cluster, HIDDEN)).Add(WorkloadObject(cluster, SHOWN))
  {
    hide WorkloadObject, Resolver.Add;
    var h, s := WorkloadObject(cluster, HIDDEN), WorkloadObject(cluster, SHOWN);
    var objs := OwnerObjects(cluster, [HIDDEN, SHOWN], []);
    assert objs == [h, s];
    assert [h, s][..1] == [h] && [h][..0] == [];
    assert AddAll(Resolver(map[], map[]), [h]) == Resolver(map[], map[]).Add(h);
  }

  lemma PairIsFound(cluster: Text)
    ensures var r := Pair(cluster);
            && r.Find("n", HERE) == Found(WorkloadObject(cluster, SHOWN)) && r.Find("n", UP) == Found(WorkloadObject(cluster, HIDDEN))
            && r.Objects() == {WorkloadObject(cluster, HIDDEN), WorkloadObject(cluster, SHOWN)}
  {
    hide NewChainResolver, WorkloadID;
    PairOfObjects(cluster);
    assert |RefKey("n", "Deployment", "hidden")| != |RefKey("n", "Deployment", "shown")|;
    var h, s := WorkloadObject(cluster, HIDDEN), WorkloadObject(cluster, SHOWN);
    var r := Pair(cluster);
    assert r.byRef == map[RefKey("n", "Deployment", "hidden") := h, RefKey("n", "Deployment", "shown") := s];
    assert r.byUID == map[UIDKey("n", "Deployment", "shown") := h];
    assert r.byRef[RefKey("n", "Deployment", "hidden")] == h && r.byRef[RefKey("n", "Deployment", "shown")] == s;
  }

  lemma PairHasOwnIDs(cluster: Text)
    ensures WorkloadID(cluster, HIDDEN) != WorkloadID(cluster, SHOWN)
  {
    hide ResourceID, Normalize;
    if WorkloadID(cluster, HIDDEN) == WorkloadID(cluster, SHOWN) {
      ResourceIDDetermines(cluster, "apps", Workload, "n", "Deployment" + ":" + "hidden", "shown", "n", "Deployment" + ":" + "shown", "");
      PlainFieldSurvives("shown", "");
    }
  }

  /** An object without a UID can hide behind the key of another: from a reference that finds `SHOWN`, both workloads are reached
      and one of them is missed. */
  lemma MissingUIDsCanHideAnOwner(cluster: Text)
    ensures var r := Pair(cluster);
            && OwnsID(r, "n", [HERE], WorkloadID(cluster, HIDDEN))
            && OwnsID(r, "n", [HERE], WorkloadID(cluster, SHOWN))
            && !(HasID(ResolveReferences(r, "n", [HERE]), WorkloadID(cluster, HIDDEN))
                 && HasID(ResolveReferences(r, "n", [HERE]), WorkloadID(cluster, SHOWN)))
  {
    var r, h, s := Pair(cluster), WorkloadObject(cluster, HIDDEN), WorkloadObject(cluster, SHOWN);
    PairIsFound(cluster);
    PairIsConfused(cluster);
    ShownReachesBoth(cluster);
    TargetsOf(cluster);
    hide Resolver.Find, ControllingReferences, Pair, SeenKey, WorkloadID, WorkloadObject, ResolveReferences, LeadsTo, Reachable, HasOwnID;
    ReferenceLeadsTo(r, "n", HERE, s, s);
    ReferenceLeadsTo(r, "n", HERE, s, h);
    assert Owns(r, "n", [HERE], s.target) && Owns(r, "n", [HERE], h.target);
    OneOfTwoIsLost(r, "n", HERE, s, h, s);
  }

  lemma TargetsOf(cluster: Text)
    ensures WorkloadObject(cluster, HIDDEN).target.id == WorkloadID(cluster, HIDDEN) && WorkloadObject(cluster, HIDDEN).workload
    ensures WorkloadObject(cluster, SHOWN).target.id == WorkloadID(cluster, SHOWN) && WorkloadObject(cluster, SHOWN).workload
  {
  }

  lemma PairIsConfused(cluster: Text)
    ensures var h, s := WorkloadObject(cluster, HIDDEN), WorkloadObject(cluster, SHOWN);
            h != s && SeenKey(h) == SeenKey(s) && HasOwnID(Pair(cluster), h) && HasOwnID(Pair(cluster), s)
  {
    PairIsFound(cluster);
    PairHasOwnIDs(cluster);
    hide Resolver.Find, Pair, WorkloadID, Resolver.Objects;
  }

  lemma ShownReachesBoth(cluster: Text)
    ensures var r, h, s := Pair(cluster), WorkloadObject(cluster, HIDDEN), WorkloadObject(cluster, SHOWN);
            Reachable(r, s, s) && Reachable(r, s, h)
  {
    var r, h, s := Pair(cluster), WorkloadObject(cluster, HIDDEN), WorkloadObject(cluster, SHOWN);
    PairIsFound(cluster);
    OneController(UP);
    hide Resolver.Find, ControllingReferences, Pair, WorkloadID, Resolver.Objects;
    assert UP in [UP] && Succ(r, s, h);
    SelfReachable(r, s);
    SelfReachable(r, h);
    StepThenReach(r, s, h, h);
  }
  // ---- A confusion that hides nothing ----

  // The same two as replica sets.
  const TO_IDLE := OwnerReference("", "ReplicaSet", "hidden", "", true)
  const IDLE := KubeReplicaSet(Metadata("shown", "hidden", "n", map[]), 1, map[], [])
  const BUSY := KubeReplicaSet(Metadata("", "shown", "n", map[]), 1, map[], [TO_IDLE])

  function Sets(cluster: Text): Resolver { NewChainResolver(cluster, [], [IDLE, BUSY]) }

  lemma SetsOfObjects(cluster: Text)
    ensures Sets(cluster) == Resolver(map[], map[]).Add(ReplicaSetObject(IDLE)).Add(ReplicaSetObject(BUSY))
  {
    hide ReplicaSetObject, Resolver.Add;
    var h, s := ReplicaSetObject(IDLE), ReplicaSetObject(BUSY);
    assert OwnerObjects(cluster, [], [IDLE, BUSY]) == [h, s];
    assert [h, s][..1] == [h] && [h][..0] == [];
    assert AddAll(Resolver(map[], map[]), [h]) == Resolver(map[], map[]).Add(h);
  }

  lemma SetsAreFound(cluster: Text)
    ensures var r := Sets(cluster);
            r.Find("n", TO_IDLE) == Found(ReplicaSetObject(IDLE)) && r.Objects() == {ReplicaSetObject(IDLE), ReplicaSetObject(BUSY)}
  {
    SetsOfObjects(cluster);
    hide NewChainResolver;
    var h, s := ReplicaSetObject(IDLE), ReplicaSetObject(BUSY);
    var r := Sets(cluster);
    assert |RefKey("n", "ReplicaSet", "hidden")| != |RefKey("n", "ReplicaSet", "shown")|;
    assert r.byRef == map[RefKey("n", "ReplicaSet", "hidden") := h, RefKey("n", "ReplicaSet", "shown") := s];
    assert r.byUID == map[UIDKey("n", "ReplicaSet", "shown") := h];
    assert r.byRef[RefKey("n", "ReplicaSet", "hidden")] == h && r.byRef[RefKey("n", "ReplicaSet", "shown")] == s;
  }

  /** Without workloads there is nothing to miss. */
  lemma NothingToMiss(r: Resolver)
    requires forall o | o in r.Objects() :: !o.workload
    ensures ResolvesCompletely(r)
  {
    hide Resolver.Find, ControllingReferences, ResolveReferences, HasID;
    forall a, o | a in r.Objects() && Reachable(r, a, o)
      ensures !o.workload
    {
      ReachableIsInside(r, a, o);
    }
    hide Reachable, Resolver.Objects;
    assert forall namespace, refs, o | LeadsTo(r, namespace, refs, o) :: !o.workload;
  }

  /** Two replica sets a walk takes for one, although no owner is missed: completeness does not always tell objects apart. */
  lemma ConfusedWithoutLoss(cluster: Text)
    ensures ResolvesCompletely(Sets(cluster)) && !ToldApart(Sets(cluster))
  {
    var r, h, s := Sets(cluster), ReplicaSetObject(IDLE), ReplicaSetObject(BUSY);
    SetsAreFound(cluster);
    NothingToMiss(r);
    OneController(TO_IDLE);
    hide Resolver.Find, ControllingReferences, Sets, Resolver.Objects, ResolvesCompletely;
    assert TO_IDLE in [TO_IDLE] && Succ(r, s, h);
    SelfReachable(r, s);
    SelfReachable(r, h);
    StepThenReach(r, s, h, h);
    assert !ToldApartFrom(r, s);
  }
}
