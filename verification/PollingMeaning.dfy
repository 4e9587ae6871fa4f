/** What a poll reports: an object of the category, listed before or after, whose text moved. */
module PollingMeaning {
  import opened GraphModel
  import opened Resources
  import opened OwnerChain
  import opened Fingerprints
  import opened Polling
  import Sorting
  import WR = WorkloadRefinement

  /** The snapshot lists an object of the category under the namespace and name; objects outside namespaces have none. */
  ghost predicate Lists(s: Snapshot, c: Category, namespace: string, name: string) {
    match c
    case Workloads =>
      || (exists w | w in s.workloads :: w.meta.namespace == namespace && w.meta.name == name)
      || exists x | x in s.replicaSets :: x.meta.namespace == namespace && x.meta.name == name
    case Pods => exists p | p in s.pods :: p.meta.namespace == namespace && p.meta.name == name
    case Services => exists v | v in s.services :: v.meta.namespace == namespace && v.meta.name == name
    case Storage =>
      || (exists p | p in s.pvcs :: p.meta.namespace == namespace && p.meta.name == name)
      || (namespace == "" && exists p | p in s.pvs :: p.meta.name == name)
      || (namespace == "" && exists x | x in s.storageClasses :: x.meta.name == name)
      || (namespace == "" && exists d | d in s.csiDrivers :: d.meta.name == name)
    case Events => exists e | e in s.events :: e.meta.namespace == namespace && e.meta.name == name
    case Identities =>
      || (exists a | a in s.serviceAccounts :: a.meta.namespace == namespace && a.meta.name == name)
      || (exists b | b in s.roleBindings :: b.meta.namespace == namespace && b.meta.name == name)
      || (namespace == "" && exists b | b in s.clusterRoleBindings :: b.meta.name == name)
  }

  lemma {:induction false} MappedAreListed(refs: seq<Ref>)
    ensures forall k | k in RefMap(refs) :: RefMap(refs)[k] in refs
    ensures forall r | r in refs :: RefKeyOf(r) in RefMap(refs)
  {
    if refs != [] {
      MappedAreListed(refs[..|refs| - 1]);
      assert refs == refs[..|refs| - 1] + [refs[|refs| - 1]];
    }
  }

  lemma SimpleRefs(s: Snapshot, c: Category, r: Ref)
    requires c in {Pods, Services, Events} && r in RefsOf(s, c)
    ensures Lists(s, c, r.namespace, r.name)
  {
    hide Flat, PodFingerprint, ServiceFingerprint, EventFingerprint;
    FlatMembers(s.pods, PodRefF());
    FlatMembers(s.services, ServiceRefF());
    FlatMembers(s.events, EventRefF());
  }

  lemma StorageRefsList(s: Snapshot, r: Ref)
    requires r in StorageRefs(s)
    ensures Lists(s, Storage, r.namespace, r.name)
  {
    hide Flat, PVCFingerprint, PVFingerprint, StorageClassFingerprint, CSIDriverFingerprint;
    FlatMembers(s.pvcs, PVCRefF());
    FlatMembers(s.pvs, PVRefF());
    FlatMembers(s.storageClasses, StorageClassRefF());
    FlatMembers(s.csiDrivers, CSIDriverRefF());
  }

  lemma IdentityRefsList(s: Snapshot, r: Ref)
    requires r in IdentityRefs(s)
    ensures Lists(s, Identities, r.namespace, r.name)
  {
    hide Flat, ServiceAccountFingerprint, RoleBindingFingerprint, ClusterRoleBindingFingerprint;
    FlatMembers(s.serviceAccounts, ServiceAccountRefF());
    FlatMembers(s.roleBindings, RoleBindingRefF());
    FlatMembers(s.clusterRoleBindings, ClusterRoleBindingRefF());
  }

  // ---- Workloads ----

  /** Namespaces of workloads and replica sets hold no '/'. */
  predicate PlainNamespaces(s: Snapshot) {
    (forall w | w in s.workloads :: '/' !in w.meta.namespace) && forall x | x in s.replicaSets :: '/' !in x.meta.namespace
  }

  lemma {:induction false} CutReads(namespace: string, name: string)
    requires '/' !in namespace
    ensures Cut(NsName(namespace, name)) == (namespace, name)
  {
    var k := NsName(namespace, name);
    if namespace != "" {
      CutReads(namespace[1..], name);
      assert k[1..] == NsName(namespace[1..], name) && namespace == [namespace[0]] + namespace[1..];
    } else {
      assert k[1..] == name;
    }
  }

  lemma ContributionsAreListed(s: Snapshot, c: Contribution)
    requires c in Contributions(s) && PlainNamespaces(s)
    ensures Lists(s, Workloads, Cut(c.key).0, Cut(c.key).1)
  {
    FlatMembers(s.workloads, WorkloadPartF());
    FlatMembers(s.replicaSets, ReplicaSetPartF(StreamResolver(s)));
    hide Flat, ResolveReferences, NewChainResolver, WorkloadFingerprint, ReplicaSetFingerprint, Cut, NsName;
    if c in Flat(s.workloads, WorkloadPartF()) {
      var w :| w in s.workloads && c in WorkloadPartF()(w);
      CutReads(w.meta.namespace, w.meta.name);
    } else {
      var x :| x in s.replicaSets && c in ReplicaSetPartF(StreamResolver(s))(x);
      var targets := ResolveReferences(StreamResolver(s), x.meta.namespace, x.ownerReferences);
      if targets == [] {
        CutReads(x.meta.namespace, x.meta.name);
      } else {
        FlatMembers(targets, TargetPartF(ReplicaSetFingerprint(x)));
        var t :| t in targets && c in TargetPartF(ReplicaSetFingerprint(x))(t);
        WR.TargetsAreWorkloads("stream", s, x.meta.namespace, x.ownerReferences);
        var w :| w in s.workloads && t == WorkloadObject("stream", w).target;
        CutReads(w.meta.namespace, w.meta.name);
      }
    }
  }

  lemma SortedHasNoMore<T(!new)>(xs: seq<T>, key: T -> seq<string>, x: T)
    requires x in Sorting.SortBy(xs, key)
    ensures x in xs
  {
    hide Sorting.SortBy, Sorting.Sorted;
    Sorting.SortKeeps(xs, key);
    Sorting.SameElements(xs, Sorting.SortBy(xs, key));
  }

  lemma SortedKeyIsThere(all: set<string>, key: string)
    requires key in Sorting.SortBy(InOrder(all), CutKey())
    ensures key in all
  {
    SortedHasNoMore(InOrder(all), CutKey(), key);
    InOrderLists(all);
    hide InOrder, Sorting.SortBy, CutKey, Sorting.Ascending;
  }

  lemma GroupIs(cs: seq<Contribution>, key: string)
    ensures GroupF(cs)(key) == [Ref(Cut(key).0, Cut(key).1, SortedJoin(At(cs, key), "|"))]
  {
    hide Cut, At, SortedJoin;
  }

  lemma OnlyMember<T>(xs: seq<T>, x: T, y: T)
    requires xs == [x] && y in xs
    ensures y == x
  {
  }

  lemma InFlat<A, B>(xs: seq<A>, f: A -> seq<B>, b: B) returns (x: A)
    requires b in Flat(xs, f)
    ensures x in xs && b in f(x)
  {
    FlatMembers(xs, f);
    hide Flat;
    x :| x in xs && b in f(x);
  }

  lemma KeyOfSome(cs: seq<Contribution>, key: string) returns (c: Contribution)
    requires key in KeysOf(cs)
    ensures c in cs && c.key == key
  {
    c :| c in cs && c.key == key;
  }

  lemma GroupsAreOfKeys(cs: seq<Contribution>, r: Ref) returns (c: Contribution)
    requires r in GroupedRefs(cs)
    ensures c in cs && r.namespace == Cut(c.key).0 && r.name == Cut(c.key).1
  {
    hide Flat, Cut, At, SortedJoin, GroupF, InOrder, Sorting.SortBy, CutKey, KeysOf;
    var key := InFlat(Sorting.SortBy(InOrder(KeysOf(cs)), CutKey()), GroupF(cs), r);
    SortedKeyIsThere(KeysOf(cs), key);
    c := KeyOfSome(cs, key);
    GroupIs(cs, key);
    OnlyMember(GroupF(cs)(key), Ref(Cut(key).0, Cut(key).1, SortedJoin(At(cs, key), "|")), r);
  }

  lemma WorkloadRefsList(s: Snapshot, r: Ref)
    requires r in WorkloadRefs(s) && PlainNamespaces(s)
    ensures Lists(s, Workloads, r.namespace, r.name)
  {
    hide GroupedRefs, Cut, Contributions, PlainNamespaces, Lists;
    var c := GroupsAreOfKeys(Contributions(s), r);
    ContributionsAreListed(s, c);
  }

  lemma RefsList(s: Snapshot, c: Category, r: Ref)
    requires r in RefsOf(s, c) && PlainNamespaces(s)
    ensures Lists(s, c, r.namespace, r.name)
  {
    hide Lists, WorkloadRefs, StorageRefs, IdentityRefs, Flat;
    match c
    case Workloads => WorkloadRefsList(s, r);
    case Storage => StorageRefsList(s, r);
    case Identities => IdentityRefsList(s, r);
    case _ => SimpleRefs(s, c, r);
  }

  /** The word a poll reports a category by. */
  ghost predicate IsWordFor(kind: string, c: Category) {
    match c
    case Workloads => kind == "workload"
    case Pods => kind == "pod"
    case Services => kind == "service"
    case Storage => kind == "storage"
    case Events => kind == "event"
    case Identities => kind == "identity/security"
  }

  lemma WordsAreNames(kind: string, c: Category)
    ensures IsWordFor(kind, c) <==> kind == CategoryName(c)
  {
  }

  /** A reported reference names a listed object of the reported category: one that the new snapshot lists, or one that the baseline listed;
      where no reference moved it is the poll itself. */
  lemma ReportsNameAListedObject(hash: string -> nat, before: Snapshot, after: Snapshot, kind: string, namespace: string, name: string, c: Category)
    requires IsReport(hash, before, after, kind, namespace, name) && IsWordFor(kind, c)
    requires PlainNamespaces(before) && PlainNamespaces(after)
    ensures Lists(after, c, namespace, name) || Lists(before, c, namespace, name) || (namespace == "" && name == "poll")
  {
    WordsAreNames(kind, c);
    hide RefsOf, Lists, PlainNamespaces, FirstChangedKind, HashesOf, RefMap, CategoryName, KindName, IsWordFor;
    var changed := FirstChangedKind(HashesOf(hash, before), HashesOf(hash, after), CATEGORIES);
    NamesTellApart(changed, c);
    var previous, current := RefMap(RefsOf(before, c)), RefMap(RefsOf(after, c));
    MappedAreListed(RefsOf(before, c));
    MappedAreListed(RefsOf(after, c));
    if ChangedKeys(previous, current) != {} {
      var k :| IsLeast(k, ChangedKeys(previous, current)) && namespace == current[k].namespace && name == current[k].name;
      RefsList(after, c, current[k]);
    } else if RemovedKeys(previous, current) != {} {
      var k :| IsLeast(k, RemovedKeys(previous, current)) && namespace == previous[k].namespace && name == previous[k].name;
      RefsList(before, c, previous[k]);
    }
  }
}
