/** What owner resolution computes: exactly the workloads reachable through controlling references. */
module OwnerReach {
  import opened Identity
  import opened Strings
  import opened Sorting
  import opened Resources
  import opened OwnerChain

  /** Of a list of references the controllers count, or all when none is marked as controller. */
  ghost predicate IsControlling(refs: seq<OwnerReference>, ref: OwnerReference) {
    ref in refs && (ref.controller || forall x | x in refs :: !x.controller)
  }

  /** One controlling reference resolves to `b`. */
  ghost predicate Refers(r: Resolver, namespace: string, refs: seq<OwnerReference>, b: OwnerObject) {
    exists ref | IsControlling(refs, ref) :: r.Find(namespace, ref) == Found(b)
  }

  ghost predicate Succ(r: Resolver, a: OwnerObject, b: OwnerObject) {
    Refers(r, a.namespace, a.ownerReferences, b)
  }

  lemma {:induction false} ControllersAreMembers(refs: seq<OwnerReference>)
    ensures forall ref :: ref in Controllers(refs) <==> ref in refs && ref.controller
  {
    if refs != [] {
      ControllersAreMembers(refs[1..]);
      assert refs == [refs[0]] + refs[1..];
    }
  }

  /** The filter of the walk keeps exactly the references that count. */
  lemma ControllingReferencesAreThose(refs: seq<OwnerReference>)
    ensures forall ref :: ref in ControllingReferences(refs) <==> IsControlling(refs, ref)
  {
    ControllersAreMembers(refs);
    if |Controllers(refs)| > 0 {
      assert Controllers(refs)[0] in Controllers(refs);
    }
  }

  /** Any reference of the list resolves to `b`. */
  ghost predicate Mentions(r: Resolver, namespace: string, refs: seq<OwnerReference>, b: OwnerObject) {
    exists ref | ref in refs :: r.Find(namespace, ref) == Found(b)
  }

  lemma RefersIsMention(r: Resolver, namespace: string, refs: seq<OwnerReference>)
    ensures forall b :: Refers(r, namespace, refs, b) <==> Mentions(r, namespace, ControllingReferences(refs), b)
  {
    hide Resolver.Find, ControllingReferences;
    ControllingReferencesAreThose(refs);
  }

  ghost predicate Steps(r: Resolver, a: OwnerObject, b: OwnerObject, n: nat)
    decreases n
  {
    if n == 0 then a == b else exists m :: Succ(r, a, m) && Steps(r, m, b, n - 1)
  }

  ghost predicate Reachable(r: Resolver, a: OwnerObject, b: OwnerObject) {
    exists n: nat :: Steps(r, a, b, n)
  }

  /** The same without leaving a set of objects. */
  ghost predicate StepsIn(r: Resolver, inside: set<OwnerObject>, a: OwnerObject, b: OwnerObject, n: nat)
    decreases n
  {
    a in inside && if n == 0 then a == b else exists m :: Succ(r, a, m) && StepsIn(r, inside, m, b, n - 1)
  }

  ghost predicate ReachableIn(r: Resolver, inside: set<OwnerObject>, a: OwnerObject, b: OwnerObject) {
    exists n: nat :: StepsIn(r, inside, a, b, n)
  }

  /** Some controlling reference leads to `b`, directly or along a chain of owners. */
  ghost predicate LeadsTo(r: Resolver, namespace: string, refs: seq<OwnerReference>, b: OwnerObject) {
    exists a :: Refers(r, namespace, refs, a) && Reachable(r, a, b)
  }

  /** No two objects reachable from `start` share the key under which a walk remembers objects. */
  ghost predicate ToldApartFrom(r: Resolver, start: OwnerObject) {
    forall a, b | Reachable(r, start, a) && Reachable(r, start, b) && SeenKey(a) == SeenKey(b) :: a == b
  }

  /** Wherever a walk starts, it can tell the objects it may meet apart. */
  ghost predicate ToldApart(r: Resolver) {
    forall start | start in r.Objects() :: ToldApartFrom(r, start)
  }

  /** The keys of all objects differ, whatever reaches them. */
  ghost predicate KeysIdentify(r: Resolver) {
    forall a, b | a in r.Objects() && b in r.Objects() && SeenKey(a) == SeenKey(b) :: a == b
  }

  lemma KeysTellApart(r: Resolver)
    requires KeysIdentify(r)
    ensures ToldApart(r)
  {
    forall start, o | start in r.Objects() && Reachable(r, start, o)
      ensures o in r.Objects()
    {
      var n: nat :| Steps(r, start, o, n);
      StepsStayInside(r, start, o, n);
    }
    hide Reachable;
  }

  /** A walk met these objects: no two under one key, and it lists the targets of the workloads among them. */
  ghost predicate Visited(r: Resolver, targets: seq<WorkloadTarget>, met: set<OwnerObject>, added: set<string>) {
    && met <= r.Objects()
    && (forall a, b | a in met && b in met && SeenKey(a) == SeenKey(b) :: a == b)
    && (forall k :: k in added <==> exists o | o in met :: SeenKey(o) == k)
    && (forall t :: t in targets <==> exists o | o in met :: o.workload && o.target == t)
  }

  /** Whatever an object met refers to was seen. */
  ghost predicate Closed(r: Resolver, met: set<OwnerObject>, seen: set<string>) {
    forall a, b | a in met && Succ(r, a, b) :: SeenKey(b) in seen
  }

  lemma SelfReachable(r: Resolver, a: OwnerObject)
    ensures Reachable(r, a, a)
  {
    assert Steps(r, a, a, 0);
  }

  lemma StepThenReach(r: Resolver, a: OwnerObject, m: OwnerObject, b: OwnerObject)
    requires Succ(r, a, m) && Reachable(r, m, b)
    ensures Reachable(r, a, b)
  {
    var n: nat :| Steps(r, m, b, n);
    assert Steps(r, a, b, n + 1);
  }

  lemma {:induction false} WiderSteps(r: Resolver, inside: set<OwnerObject>, wider: set<OwnerObject>, a: OwnerObject, b: OwnerObject, n: nat)
    requires StepsIn(r, inside, a, b, n) && inside <= wider
    ensures StepsIn(r, wider, a, b, n) && Steps(r, a, b, n)
    decreases n
  {
    if n > 0 {
      var m :| Succ(r, a, m) && StepsIn(r, inside, m, b, n - 1);
      WiderSteps(r, inside, wider, m, b, n - 1);
    }
  }

  lemma WiderReach(r: Resolver, inside: set<OwnerObject>, wider: set<OwnerObject>, a: OwnerObject, b: OwnerObject)
    requires ReachableIn(r, inside, a, b) && inside <= wider
    ensures ReachableIn(r, wider, a, b) && Reachable(r, a, b)
  {
    var n: nat :| StepsIn(r, inside, a, b, n);
    WiderSteps(r, inside, wider, a, b, n);
  }

  lemma SelfReachableIn(r: Resolver, inside: set<OwnerObject>, a: OwnerObject)
    requires a in inside
    ensures ReachableIn(r, inside, a, a)
  {
    assert StepsIn(r, inside, a, a, 0);
  }

  lemma StepThenReachIn(r: Resolver, inside: set<OwnerObject>, a: OwnerObject, m: OwnerObject, b: OwnerObject)
    requires a in inside && Succ(r, a, m) && ReachableIn(r, inside, m, b)
    ensures ReachableIn(r, inside, a, b)
  {
    var n: nat :| StepsIn(r, inside, m, b, n);
    assert StepsIn(r, inside, a, b, n + 1);
  }

  /** Any reference of the list leads to `b`. */
  ghost predicate LeadsAmong(r: Resolver, namespace: string, refs: seq<OwnerReference>, b: OwnerObject) {
    exists a :: Mentions(r, namespace, refs, a) && Reachable(r, a, b)
  }

  /** And does so without leaving a set of objects. */
  ghost predicate LeadsIn(r: Resolver, inside: set<OwnerObject>, namespace: string, refs: seq<OwnerReference>, b: OwnerObject) {
    exists a :: Mentions(r, namespace, refs, a) && ReachableIn(r, inside, a, b)
  }

  lemma LeadsInMore(r: Resolver, inside: set<OwnerObject>, wider: set<OwnerObject>, namespace: string, refs: seq<OwnerReference>, b: OwnerObject)
    requires refs != [] && inside <= wider
    requires LeadsIn(r, inside, namespace, refs[1..], b)
             || (r.Find(namespace, refs[0]).Found? && ReachableIn(r, inside, r.Find(namespace, refs[0]).obj, b))
    ensures LeadsIn(r, wider, namespace, refs, b)
  {
    assert refs == [refs[0]] + refs[1..];
    hide ReachableIn, Reachable, Resolver.Find;
    if LeadsIn(r, inside, namespace, refs[1..], b) {
      var a :| Mentions(r, namespace, refs[1..], a) && ReachableIn(r, inside, a, b);
      assert Mentions(r, namespace, refs, a);
      WiderReach(r, inside, wider, a, b);
    } else {
      var a := r.Find(namespace, refs[0]).obj;
      assert refs[0] in refs && Mentions(r, namespace, refs, a);
      WiderReach(r, inside, wider, a, b);
    }
  }

  lemma LeadsAmongSplits(r: Resolver, namespace: string, refs: seq<OwnerReference>, b: OwnerObject)
    requires refs != []
    ensures LeadsAmong(r, namespace, refs, b) <==>
      (r.Find(namespace, refs[0]).Found? && Reachable(r, r.Find(namespace, refs[0]).obj, b)) || LeadsAmong(r, namespace, refs[1..], b)
  {
    assert refs == [refs[0]] + refs[1..];
    assert forall a :: Mentions(r, namespace, refs, a) <==> r.Find(namespace, refs[0]) == Found(a) || Mentions(r, namespace, refs[1..], a);
  }

  lemma VisitedUnion(r: Resolver, a: seq<WorkloadTarget>, ma: set<OwnerObject>, ka: set<string>,
                     b: seq<WorkloadTarget>, mb: set<OwnerObject>, kb: set<string>)
    requires Visited(r, a, ma, ka) && Visited(r, b, mb, kb) && ka !! kb
    ensures Visited(r, a + b, ma + mb, ka + kb)
  {
    hide SeenKey;
    assert forall o | o in ma :: SeenKey(o) in ka;
    assert forall o | o in mb :: SeenKey(o) in kb;
  }

  lemma OwnVisit(r: Resolver, obj: OwnerObject)
    requires obj in r.Objects()
    ensures Visited(r, if obj.workload then [obj.target] else [], {obj}, {SeenKey(obj)})
  {
  }

  /** The first object referred to is met unless its key was seen before. */
  ghost predicate MeetsFirst(r: Resolver, namespace: string, refs: seq<OwnerReference>, seen: set<string>, met: set<OwnerObject>) {
    refs != [] && r.Find(namespace, refs[0]).Found? && SeenKey(r.Find(namespace, refs[0]).obj) !in seen ==>
      r.Find(namespace, refs[0]).obj in met
  }

  /** What one walk meets, whatever the keys are: objects under new keys, reachable through each other, closed under ownership up to the
      keys seen. */
  lemma {:induction false} ObjectWalk(r: Resolver, obj: OwnerObject, seen: set<string>) returns (met: set<OwnerObject>)
    requires obj in r.Objects()
    ensures var (targets, seen') := ResolveObject(r, obj, seen);
            && SeenKey(obj) in seen' && (SeenKey(obj) !in seen ==> obj in met)
            && Visited(r, targets, met, seen' - seen) && Closed(r, met, seen') && forall o | o in met :: ReachableIn(r, met, obj, o)
    ensures SeenKey(obj) !in seen ==>
      MeetsFirst(r, obj.namespace, ControllingReferences(obj.ownerReferences), seen + {SeenKey(obj)}, met)
    decreases r.Keys() - seen, 0
  {
    hide Visited, ReachableIn;
    var key := SeenKey(obj);
    if key !in seen {
      assert key in r.Keys() - seen;
      var refs := ControllingReferences(obj.ownerReferences);
      var (targets, seen') := ResolveAll(r, obj.namespace, refs, seen + {key});
      var more := AllWalk(r, obj.namespace, refs, seen + {key});
      RefersIsMention(r, obj.namespace, obj.ownerReferences);
      met := {obj} + more;
      var added := seen' - (seen + {key});
      assert seen' - seen == {key} + added;
      OwnVisit(r, obj);
      VisitedUnion(r, if obj.workload then [obj.target] else [], {obj}, {key}, targets, more, added);
      SelfReachableIn(r, met, obj);
      forall o | o in more
        ensures ReachableIn(r, met, obj, o)
      {
        var a :| Mentions(r, obj.namespace, refs, a) && ReachableIn(r, more, a, o);
        WiderReach(r, more, met, a, o);
        StepThenReachIn(r, met, obj, a, o);
      }
    } else {
      met := {};
      assert seen - seen == {};
      NothingVisited(r);
    }
  }

  lemma NothingVisited(r: Resolver)
    ensures Visited(r, [], {}, {})
  {
  }

  lemma {:induction false} AllWalk(r: Resolver, namespace: string, refs: seq<OwnerReference>, seen: set<string>) returns (met: set<OwnerObject>)
    ensures var (targets, seen') := ResolveAll(r, namespace, refs, seen);
            && (forall a | Mentions(r, namespace, refs, a) :: SeenKey(a) in seen')
            && Visited(r, targets, met, seen' - seen) && Closed(r, met, seen') && forall o | o in met :: LeadsIn(r, met, namespace, refs, o)
    ensures MeetsFirst(r, namespace, refs, seen, met)
    decreases r.Keys() - seen, |refs|
  {
    hide Visited, ReachableIn;
    if refs == [] {
      met := {};
      assert seen - seen == {};
      NothingVisited(r);
    } else {
      var found := r.Find(namespace, refs[0]);
      var (first, seen1) := match found case Missing => ([], seen) case Found(obj) => ResolveObject(r, obj, seen);
      var here: set<OwnerObject> := {};
      if found.Found? {
        here := ObjectWalk(r, found.obj, seen);
      } else {
        assert seen - seen == {};
        NothingVisited(r);
      }
      assert r.Keys() - seen1 <= r.Keys() - seen;
      var (rest, seen2) := ResolveAll(r, namespace, refs[1..], seen1);
      var more := AllWalk(r, namespace, refs[1..], seen1);
      assert seen2 - seen == (seen1 - seen) + (seen2 - seen1);
      VisitedUnion(r, first, here, seen1 - seen, rest, more, seen2 - seen1);
      met := here + more;
      hide LeadsIn;
      forall o | o in met
        ensures LeadsIn(r, met, namespace, refs, o)
      {
        LeadsInMore(r, if o in here then here else more, met, namespace, refs, o);
      }
      assert refs == [refs[0]] + refs[1..];
    }
  }

  /** A walk that starts with nothing seen meets all it can reach, if it can tell them apart. */
  lemma {:induction false} MeetsAll(r: Resolver, start: OwnerObject, met: set<OwnerObject>, seen: set<string>, a: OwnerObject, b: OwnerObject, n: nat)
    requires ToldApartFrom(r, start) && a in met && Steps(r, a, b, n) && Closed(r, met, seen)
    requires (forall o | o in met :: Reachable(r, start, o)) && forall k | k in seen :: exists o | o in met :: SeenKey(o) == k
    ensures b in met
    decreases n
  {
    hide SeenKey, Refers, Reachable;
    if n > 0 {
      var m :| Succ(r, a, m) && Steps(r, m, b, n - 1);
      assert SeenKey(m) in seen;
      var o :| o in met && SeenKey(o) == SeenKey(m);
      ReachThenStep(r, start, a, m);
      MeetsAll(r, start, met, seen, m, b, n - 1);
    }
  }

  lemma {:induction false} StepsThenStep(r: Resolver, a: OwnerObject, m: OwnerObject, b: OwnerObject, n: nat)
    requires Steps(r, a, m, n) && Succ(r, m, b)
    ensures Steps(r, a, b, n + 1)
    decreases n
  {
    if n == 0 {
      assert Steps(r, b, b, 0);
    } else {
      var first :| Succ(r, a, first) && Steps(r, first, m, n - 1);
      StepsThenStep(r, first, m, b, n - 1);
    }
  }

  lemma ReachThenStep(r: Resolver, a: OwnerObject, m: OwnerObject, b: OwnerObject)
    requires Reachable(r, a, m) && Succ(r, m, b)
    ensures Reachable(r, a, b)
  {
    var n: nat :| Steps(r, a, m, n);
    StepsThenStep(r, a, m, b, n);
  }

  lemma FreshWalkFindsReachable(r: Resolver, obj: OwnerObject)
    requires ToldApartFrom(r, obj) && obj in r.Objects()
    ensures forall t :: t in ResolveObject(r, obj, {}).0 <==> exists o :: Reachable(r, obj, o) && o.workload && o.target == t
  {
    var (targets, seen) := ResolveObject(r, obj, {});
    var met := ObjectWalk(r, obj, {});
    assert seen - {} == seen;
    forall o | o in met { WiderReach(r, met, met, obj, o); }
    forall o
      ensures o in met <==> Reachable(r, obj, o)
    {
      if Reachable(r, obj, o) {
        var n: nat :| Steps(r, obj, o, n);
        MeetsAll(r, obj, met, seen, obj, o, n);
      }
    }
    hide Reachable;
  }

  ghost predicate HasID(targets: seq<WorkloadTarget>, id: CanonicalID) {
    exists t | t in targets :: t.id == id
  }

  ghost predicate DistinctIDs(targets: seq<WorkloadTarget>) {
    forall i, j | 0 <= i < j < |targets| :: targets[i].id != targets[j].id
  }

  lemma {:induction false} AppendNewKeepsIDs(acc: seq<WorkloadTarget>, targets: seq<WorkloadTarget>)
    requires DistinctIDs(acc)
    ensures DistinctIDs(AppendNew(acc, targets))
    ensures forall id :: HasID(AppendNew(acc, targets), id) <==> HasID(acc, id) || HasID(targets, id)
    ensures forall t | t in AppendNew(acc, targets) :: t in acc || t in targets
    decreases targets
  {
    if targets != [] {
      var t := targets[0];
      assert targets == [t] + targets[1..];
      assert forall id :: HasID(targets, id) <==> t.id == id || HasID(targets[1..], id);
      if exists u | u in acc :: u.id == t.id {
        AppendNewKeepsIDs(acc, targets[1..]);
      } else {
        assert forall id :: HasID(acc + [t], id) <==> HasID(acc, id) || t.id == id;
        AppendNewKeepsIDs(acc + [t], targets[1..]);
      }
    }
  }

  /** A workload with this target is reachable from the references. */
  ghost predicate Owns(r: Resolver, namespace: string, refs: seq<OwnerReference>, t: WorkloadTarget) {
    exists o :: LeadsTo(r, namespace, refs, o) && o.workload && o.target == t
  }

  ghost predicate OwnsID(r: Resolver, namespace: string, refs: seq<OwnerReference>, id: CanonicalID) {
    exists t :: Owns(r, namespace, refs, t) && t.id == id
  }

  ghost predicate OwnsAmong(r: Resolver, namespace: string, refs: seq<OwnerReference>, t: WorkloadTarget) {
    exists o :: LeadsAmong(r, namespace, refs, o) && o.workload && o.target == t
  }

  ghost predicate OwnsIDAmong(r: Resolver, namespace: string, refs: seq<OwnerReference>, id: CanonicalID) {
    exists t :: OwnsAmong(r, namespace, refs, t) && t.id == id
  }

  lemma OwnersAreAmongControlling(r: Resolver, namespace: string, refs: seq<OwnerReference>)
    ensures forall t :: Owns(r, namespace, refs, t) <==> OwnsAmong(r, namespace, ControllingReferences(refs), t)
    ensures forall id :: OwnsID(r, namespace, refs, id) <==> OwnsIDAmong(r, namespace, ControllingReferences(refs), id)
  {
    hide Refers, Mentions, ControllingReferences, Reachable;
    RefersIsMention(r, namespace, refs);
    assert forall o :: LeadsTo(r, namespace, refs, o) <==> LeadsAmong(r, namespace, ControllingReferences(refs), o);
    hide LeadsTo, LeadsAmong;
    assert forall t :: Owns(r, namespace, refs, t) <==> OwnsAmong(r, namespace, ControllingReferences(refs), t);
  }

  lemma OwnsSplits(r: Resolver, namespace: string, refs: seq<OwnerReference>)
    requires ToldApart(r) && refs != []
    ensures forall t :: OwnsAmong(r, namespace, refs, t) <==>
              (r.Find(namespace, refs[0]).Found? && t in ResolveObject(r, r.Find(namespace, refs[0]).obj, {}).0)
              || OwnsAmong(r, namespace, refs[1..], t)
  {
    var found := r.Find(namespace, refs[0]);
    if found.Found? {
      FreshWalkFindsReachable(r, found.obj);
    }
    forall o { LeadsAmongSplits(r, namespace, refs, o); }
    hide LeadsAmong, Reachable, ResolveObject;
  }

  lemma {:induction false} GatherFindsOwners(r: Resolver, namespace: string, refs: seq<OwnerReference>, acc: seq<WorkloadTarget>)
    requires ToldApart(r) && DistinctIDs(acc)
    ensures DistinctIDs(Gather(r, namespace, refs, acc))
    ensures forall id :: HasID(Gather(r, namespace, refs, acc), id) <==> HasID(acc, id) || OwnsIDAmong(r, namespace, refs, id)
    ensures forall t | t in Gather(r, namespace, refs, acc) :: t in acc || OwnsAmong(r, namespace, refs, t)
    decreases refs
  {
    if refs == [] {
      assert forall o :: !LeadsAmong(r, namespace, [], o);
    } else {
      hide OwnsAmong, ToldApart, ResolveObject;
      OwnsSplits(r, namespace, refs);
      var found := r.Find(namespace, refs[0]);
      if found.Found? {
        var targets := ResolveObject(r, found.obj, {}).0;
        AppendNewKeepsIDs(acc, targets);
        GatherFindsOwners(r, namespace, refs[1..], AppendNew(acc, targets));
      } else {
        GatherFindsOwners(r, namespace, refs[1..], acc);
      }
    }
  }

  /** By namespace, then kind, name and UID. */
  predicate ComesBefore(a: WorkloadTarget, b: WorkloadTarget) {
    || Less(a.namespace, b.namespace)
    || (a.namespace == b.namespace &&
        (|| Less(a.kind, b.kind)
         || (a.kind == b.kind && (Less(a.name, b.name) || (a.name == b.name && Less(a.uid, b.uid))))))
  }

  lemma OrderIsByFields(a: WorkloadTarget, b: WorkloadTarget)
    ensures KeyLess(TargetKey()(a), TargetKey()(b)) <==> ComesBefore(a, b)
  {
    hide Less, KeyLess;
    var x, y := TargetKey()(a), TargetKey()(b);
    KeyLessUnfolds(x, y);
    assert x[1..] == [a.kind, a.name, a.uid] && y[1..] == [b.kind, b.name, b.uid];
    KeyLessUnfolds(x[1..], y[1..]);
    assert x[1..][1..] == [a.name, a.uid] && y[1..][1..] == [b.name, b.uid];
    KeyLessUnfolds(x[1..][1..], y[1..][1..]);
    assert x[1..][1..][1..] == [a.uid] && y[1..][1..][1..] == [b.uid];
    KeyLessUnfolds([a.uid], [b.uid]);
    assert [a.uid][1..] == [] && [b.uid][1..] == [];
    NothingIsLess();
  }

  lemma KeyLessUnfolds(a: seq<string>, b: seq<string>)
    requires a != [] && b != []
    ensures KeyLess(a, b) <==> Less(a[0], b[0]) || (a[0] == b[0] && KeyLess(a[1..], b[1..]))
  {
    hide Less;
  }

  lemma NothingIsLess()
    ensures !KeyLess([], [])
  {
  }

  /** Resolution returns each workload reachable through controlling references exactly once, in order. */
  lemma ResolvesExactlyOwners(r: Resolver, namespace: string, refs: seq<OwnerReference>)
    requires ToldApart(r)
    ensures var targets := ResolveReferences(r, namespace, refs);
            && DistinctIDs(targets) && Sorted(targets, TargetKey())
            && (forall id :: HasID(targets, id) <==> OwnsID(r, namespace, refs, id))
            && (forall t | t in targets :: Owns(r, namespace, refs, t))
            && forall i, j | 0 <= i < j < |targets| :: !ComesBefore(targets[j], targets[i])
  {
    hide Owns, OwnsID, OwnsAmong, OwnsIDAmong, ToldApart, Gather, ControllingReferences;
    OwnersAreAmongControlling(r, namespace, refs);
    var gathered := Gather(r, namespace, ControllingReferences(refs), []);
    GatherFindsOwners(r, namespace, ControllingReferences(refs), []);
    SortKeeps(gathered, TargetKey());
    SameElements(gathered, SortBy(gathered, TargetKey()));
    PermutedIDs(gathered, SortBy(gathered, TargetKey()));
    forall a, b { OrderIsByFields(a, b); }
  }

  lemma TwiceCountsTwice<T>(xs: seq<T>, i: nat, j: nat)
    requires i < j < |xs| && xs[i] == xs[j]
    ensures multiset(xs)[xs[i]] >= 2
  {
    assert xs == xs[..j] + [xs[j]] + xs[j + 1..];
    assert xs[i] in xs[..j];
  }

  lemma PermutedIDs(a: seq<WorkloadTarget>, b: seq<WorkloadTarget>)
    requires multiset(a) == multiset(b) && DistinctIDs(a)
    ensures DistinctIDs(b) && forall id :: HasID(a, id) <==> HasID(b, id)
  {
    SameElements(a, b);
    forall i, j | 0 <= i < j < |b|
      ensures b[i].id != b[j].id
    {
      if b[i].id == b[j].id {
        assert b[i] in a && b[j] in a;
        TwiceCountsTwice(b, i, j);
        DistinctCountsOnce(a);
      }
    }
  }

  // ---- The answer does not depend on the order of references. ----

  /** The same object but for the order of its references. */
  ghost predicate SameButOrder(a: OwnerObject, b: OwnerObject) {
    b == a.(ownerReferences := b.ownerReferences) && multiset(a.ownerReferences) == multiset(b.ownerReferences)
  }

  ghost predicate SameMap(m: map<string, OwnerObject>, n: map<string, OwnerObject>) {
    m.Keys == n.Keys && forall k | k in m :: SameButOrder(m[k], n[k])
  }

  ghost predicate SameResolver(r: Resolver, s: Resolver) {
    SameMap(r.byUID, s.byUID) && SameMap(r.byRef, s.byRef)
  }

  lemma ControllingForgetsOrder(a: seq<OwnerReference>, b: seq<OwnerReference>)
    requires multiset(a) == multiset(b)
    ensures forall ref :: IsControlling(a, ref) <==> IsControlling(b, ref)
  {
    SameElements(a, b);
  }

  lemma RefersForgetsOrder(r: Resolver, s: Resolver, namespace: string, p: seq<OwnerReference>, q: seq<OwnerReference>, b: OwnerObject)
    returns (b': OwnerObject)
    requires SameResolver(r, s) && (forall ref :: IsControlling(p, ref) <==> IsControlling(q, ref)) && Refers(r, namespace, p, b)
    ensures SameButOrder(b, b') && Refers(s, namespace, q, b')
  {
    var ref :| IsControlling(p, ref) && r.Find(namespace, ref) == Found(b);
    b' := s.Find(namespace, ref).obj;
  }

  lemma {:induction false} StepsForgetOrder(r: Resolver, s: Resolver, a: OwnerObject, a': OwnerObject, b: OwnerObject, n: nat)
    returns (b': OwnerObject)
    requires SameResolver(r, s) && SameButOrder(a, a') && Steps(r, a, b, n)
    ensures SameButOrder(b, b') && Steps(s, a', b', n)
    decreases n
  {
    hide SameResolver, Refers, IsControlling;
    if n == 0 {
      b' := a';
    } else {
      var m :| Succ(r, a, m) && Steps(r, m, b, n - 1);
      ControllingForgetsOrder(a.ownerReferences, a'.ownerReferences);
      var m' := RefersForgetsOrder(r, s, a.namespace, a.ownerReferences, a'.ownerReferences, m);
      b' := StepsForgetOrder(r, s, m, m', b, n - 1);
      assert a'.namespace == a.namespace;
      assert Succ(s, a', m') && Steps(s, m', b', n - 1);
    }
  }

  lemma OwnsForgetsOrder(r: Resolver, s: Resolver, namespace: string, p: seq<OwnerReference>, q: seq<OwnerReference>, t: WorkloadTarget)
    requires SameResolver(r, s) && (forall ref :: IsControlling(p, ref) <==> IsControlling(q, ref)) && Owns(r, namespace, p, t)
    ensures Owns(s, namespace, q, t)
  {
    var o :| LeadsTo(r, namespace, p, o) && o.workload && o.target == t;
    var a :| Refers(r, namespace, p, a) && Reachable(r, a, o);
    var n: nat :| Steps(r, a, o, n);
    var a' := RefersForgetsOrder(r, s, namespace, p, q, a);
    var o' := StepsForgetOrder(r, s, a, a', o, n);
    assert Reachable(s, a', o') && LeadsTo(s, namespace, q, o');
  }

  /** A workload's identifier, and its place in the order, determine it. */
  ghost predicate TargetsIdentify(r: Resolver) {
    forall a, b | a in r.Objects() && b in r.Objects() && a.workload && b.workload ::
      (a.target.id == b.target.id || TargetKey()(a.target) == TargetKey()(b.target)) ==> a.target == b.target
  }

  lemma SameResolverIsSymmetric(r: Resolver, s: Resolver)
    requires SameResolver(r, s)
    ensures SameResolver(s, r)
  {
  }

  lemma OwnedIsWorkload(r: Resolver, namespace: string, refs: seq<OwnerReference>, t: WorkloadTarget)
    requires Owns(r, namespace, refs, t)
    ensures exists o | o in r.Objects() :: o.workload && o.target == t
  {
    var o :| LeadsTo(r, namespace, refs, o) && o.workload && o.target == t;
    var a :| Refers(r, namespace, refs, a) && Reachable(r, a, o);
    var n: nat :| Steps(r, a, o, n);
    StepsStayInside(r, a, o, n);
  }

  lemma {:induction false} StepsStayInside(r: Resolver, a: OwnerObject, b: OwnerObject, n: nat)
    requires a in r.Objects() && Steps(r, a, b, n)
    ensures b in r.Objects()
    decreases n
  {
    if n > 0 {
      var m :| Succ(r, a, m) && Steps(r, m, b, n - 1);
      StepsStayInside(r, m, b, n - 1);
    }
  }

  /** Reordering references, at the start or anywhere along the chains, does not change the answer. */
  lemma ResolutionForgetsOrder(r: Resolver, s: Resolver, namespace: string, p: seq<OwnerReference>, q: seq<OwnerReference>)
    requires ToldApart(r) && ToldApart(s) && TargetsIdentify(r) && SameResolver(r, s) && multiset(p) == multiset(q)
    ensures ResolveReferences(r, namespace, p) == ResolveReferences(s, namespace, q)
  {
    hide ResolveReferences, IsControlling, Owns, TargetsIdentify, SameResolver, ToldApart;
    var xs, ys := ResolveReferences(r, namespace, p), ResolveReferences(s, namespace, q);
    ResolvesExactlyOwners(r, namespace, p);
    ResolvesExactlyOwners(s, namespace, q);
    ControllingForgetsOrder(p, q);
    OwnersForgetOrder(r, s, namespace, p, q);
    OwnersAreIdentified(r, namespace, p);
    assert forall id :: HasID(xs, id) <==> HasID(ys, id);
    SortedListsAgree(xs, ys);
  }

  lemma OwnersForgetOrder(r: Resolver, s: Resolver, namespace: string, p: seq<OwnerReference>, q: seq<OwnerReference>)
    requires SameResolver(r, s) && forall ref :: IsControlling(p, ref) <==> IsControlling(q, ref)
    ensures forall t :: Owns(r, namespace, p, t) <==> Owns(s, namespace, q, t)
    ensures forall id :: OwnsID(r, namespace, p, id) <==> OwnsID(s, namespace, q, id)
  {
    SameResolverIsSymmetric(r, s);
    hide SameResolver, Owns;
    forall t
      ensures Owns(r, namespace, p, t) <==> Owns(s, namespace, q, t)
    {
      if Owns(r, namespace, p, t) {
        OwnsForgetsOrder(r, s, namespace, p, q, t);
      }
      if Owns(s, namespace, q, t) {
        OwnsForgetsOrder(s, r, namespace, q, p, t);
      }
    }
  }

  lemma OwnersAreIdentified(r: Resolver, namespace: string, refs: seq<OwnerReference>)
    requires TargetsIdentify(r)
    ensures forall t, u | Owns(r, namespace, refs, t) && Owns(r, namespace, refs, u) ::
              t.id == u.id || TargetKey()(t) == TargetKey()(u) ==> t == u
  {
    forall t, u | Owns(r, namespace, refs, t) && Owns(r, namespace, refs, u)
      ensures t.id == u.id || TargetKey()(t) == TargetKey()(u) ==> t == u
    {
      OwnedIsWorkload(r, namespace, refs, t);
      OwnedIsWorkload(r, namespace, refs, u);
    }
  }

  lemma SortedListsAgree(xs: seq<WorkloadTarget>, ys: seq<WorkloadTarget>)
    requires DistinctIDs(xs) && DistinctIDs(ys) && Sorted(xs, TargetKey()) && Sorted(ys, TargetKey())
    requires forall id :: HasID(xs, id) <==> HasID(ys, id)
    requires forall t, u | (t in xs || t in ys) && (u in xs || u in ys) && (t.id == u.id || TargetKey()(t) == TargetKey()(u)) :: t == u
    ensures xs == ys
  {
    forall t
      ensures t in xs <==> t in ys
    {
      if t in xs {
        assert HasID(xs, t.id);
      }
      if t in ys {
        assert HasID(ys, t.id);
      }
    }
    assert Distinct(xs) && Distinct(ys);
    DistinctListsPermute(xs, ys);
    SortedIsUnique(xs, ys, TargetKey());
  }

  // ---- When the keys identify. ----

  lemma {:induction false} ObjectsComeFromTheLists(objs: seq<OwnerObject>)
    ensures forall o | o in AddAll(Resolver(map[], map[]), objs).Objects() :: o in objs
  {
    if objs != [] {
      ObjectsComeFromTheLists(objs[..|objs| - 1]);
      assert objs == objs[..|objs| - 1] + [objs[|objs| - 1]];
    }
  }

  /** Workloads and replica sets that the walk remembers under different keys are told apart. */
  lemma DistinctKeysIdentify(cluster: Text, workloads: seq<KubeWorkload>, replicaSets: seq<KubeReplicaSet>)
    requires var objs := OwnerObjects(cluster, workloads, replicaSets);
             forall a, b | a in objs && b in objs && SeenKey(a) == SeenKey(b) :: a == b
    ensures KeysIdentify(NewChainResolver(cluster, workloads, replicaSets))
  {
    ObjectsComeFromTheLists(OwnerObjects(cluster, workloads, replicaSets));
  }
}
