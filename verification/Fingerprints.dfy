/** Fingerprints of snapshots: strings in which the order of lists and maps does not show. */
module Fingerprints {
  import opened Strings
  import opened Sorting
  import opened GraphModel
  import opened Resources
  import opened OwnerChain

  function SortedJoin(parts: seq<string>, separator: string): string {
    Join(SortStrings(parts), separator)
  }

  lemma SortedJoinForgetsOrder(a: seq<string>, b: seq<string>, separator: string)
    requires multiset(a) == multiset(b)
    ensures SortedJoin(a, separator) == SortedJoin(b, separator)
  {
    SortStringsForgetsOrder(a, b);
  }

  function Digits(n: nat): string {
    if n < 10 then [('0' as int + n) as char] else Digits(n / 10) + [('0' as int + n % 10) as char]
  }

  /** The %d verb. */
  function Decimal(n: int): string {
    if n < 0 then "-" + Digits(-n) else Digits(n)
  }

  // ---- Keys of a map in order ----

  predicate IsLeast(k: string, keys: set<string>) {
    k in keys && forall j | j in keys :: j == k || Less(k, j)
  }

  lemma {:induction false} LeastExists(keys: set<string>)
    requires keys != {}
    ensures exists k :: IsLeast(k, keys)
  {
    hide Less;
    var x :| x in keys;
    if keys - {x} == {} {
      assert forall j | j in keys :: j == x || j in keys - {x};
      assert IsLeast(x, keys);
    } else {
      LeastExists(keys - {x});
      var k :| IsLeast(k, keys - {x});
      LessIsTotal(k, x);
      if Less(x, k) {
        forall j | j in keys && j != x && j != k
          ensures Less(x, j)
        {
          assert j in keys - {x};
          LessIsTransitive(x, k, j);
        }
        assert IsLeast(x, keys);
      } else {
        assert IsLeast(k, keys);
      }
    }
  }

  lemma LeastIsUnique(a: string, b: string, keys: set<string>)
    requires IsLeast(a, keys) && IsLeast(b, keys)
    ensures a == b
  {
    LessIsTotal(a, b);
  }

  function Least(keys: set<string>): (k: string)
    requires keys != {}
    ensures IsLeast(k, keys)
  {
    LeastExists(keys);
    assert forall a, b | IsLeast(a, keys) && IsLeast(b, keys) :: a == b by {
      forall a, b | IsLeast(a, keys) && IsLeast(b, keys) { LeastIsUnique(a, b, keys); }
    }
    var k :| IsLeast(k, keys);
    k
  }

  function InOrder(keys: set<string>): seq<string> {
    if keys == {} then [] else [Least(keys)] + InOrder(keys - {Least(keys)})
  }

  lemma {:induction false} InOrderLists(keys: set<string>)
    ensures Ascending(InOrder(keys)) && |InOrder(keys)| == |keys| && forall k :: k in InOrder(keys) <==> k in keys
  {
    hide Less;
    if keys != {} {
      InOrderLists(keys - {Least(keys)});
      var rest := InOrder(keys - {Least(keys)});
      assert forall j | 0 <= j < |rest| :: rest[j] in rest;
    }
  }

  /** The only strictly increasing list of the keys. */
  lemma {:induction false} AscendingIsUnique(a: seq<string>, b: seq<string>)
    requires Ascending(a) && Ascending(b) && forall k :: k in a <==> k in b
    ensures a == b
  {
    var key := (x: string) => [x];
    AscendingIsSorted(a);
    AscendingIsSorted(b);
    DistinctListsPermute(a, b);
    assert forall x, y: string | key(x) == key(y) :: key(x)[0] == key(y)[0];
    SortedIsUnique(a, b, key);
  }

  lemma AscendingIsSorted(a: seq<string>)
    requires Ascending(a)
    ensures Distinct(a) && Sorted(a, (x: string) => [x])
  {
    hide Less;
    forall i, j | 0 <= i < j < |a|
      ensures a[i] != a[j] && !KeyLess([a[j]], [a[i]])
    {
      LessIsTotal(a[i], a[j]);
    }
  }

  function Pairs(m: Labels, keys: seq<string>): seq<string>
    requires forall k | k in keys :: k in m
  {
    if keys == [] then [] else Pairs(m, keys[..|keys| - 1]) + [keys[|keys| - 1] + "=" + m[keys[|keys| - 1]]]
  }

  function StringMapFingerprint(m: Labels): string {
    InOrderLists(m.Keys);
    Join(Pairs(m, InOrder(m.Keys)), ",")
  }

  /** As the source computes it: map order, then sorted. */
  method FingerprintMap(m: Labels) returns (fingerprint: string)
    ensures fingerprint == StringMapFingerprint(m)
  {
    hide InOrder, Less;
    if |m| == 0 {
      assert m.Keys == {};
      NoPairs();
      return "";
    }
    var keys := SortedElements(m.Keys);
    InOrderLists(m.Keys);
    AscendingIsUnique(keys, InOrder(m.Keys));
    var parts: seq<string> := [];
    for i := 0 to |keys|
      invariant parts == Pairs(m, keys[..i])
    {
      assert keys[..i + 1][..i] == keys[..i];
      assert keys[i] in keys;
      parts := parts + [keys[i] + "=" + m[keys[i]]];
    }
    PrefixEnds(keys);
    return Join(parts, ",");
  }

  lemma NoPairs()
    ensures InOrder({}) == [] && Join([], ",") == ""
  {
  }

  // ---- Per resource ----

  function StringSliceFingerprint(in0: seq<string>): string {
    SortedJoin(in0, ",")
  }

  function RefPart(ref: OwnerReference): string {
    Join([ref.apiVersion, ref.kind, ref.name, ref.uid, if ref.controller then "true" else "false"], "/")
  }

  function RefPartF(): OwnerReference -> seq<string> { (ref: OwnerReference) => [RefPart(ref)] }

  function OwnerReferenceFingerprint(refs: seq<OwnerReference>): string {
    SortedJoin(Flat(refs, RefPartF()), ",")
  }

  function SliceValue(in0: seq<string>, index: nat): string {
    if index < |in0| then in0[index] else ""
  }

  function Max(a: nat, b: nat): nat { if a < b then b else a }

  datatype Subject = Subject(kind: string, name: string, namespace: string)

  /** Subjects as triples, padded to the longest of the three lists. */
  function Subjects(b: KubeBinding): seq<Subject> {
    seq(Max(Max(|b.subjectKinds|, |b.subjectNames|), |b.subjectNamespaces|), i requires 0 <= i =>
      Subject(SliceValue(b.subjectKinds, i), SliceValue(b.subjectNames, i), SliceValue(b.subjectNamespaces, i)))
  }

  function SubjectPartF(): Subject -> seq<string> {
    (t: Subject) => [Join([t.kind, t.name, t.namespace], "/")]
  }

  function SubjectFingerprint(b: KubeBinding): string {
    SortedJoin(Flat(Subjects(b), SubjectPartF()), ",")
  }

  function WorkloadFingerprint(w: KubeWorkload): string {
    Join([w.meta.namespace, w.apiVersion, w.controllerKind, w.meta.name, w.meta.uid, Decimal(w.replicas),
          StringMapFingerprint(w.meta.labels), StringMapFingerprint(w.conditions), OwnerReferenceFingerprint(w.ownerReferences)], "/")
  }

  function ReplicaSetFingerprint(r: KubeReplicaSet): string {
    Join(["replicaset", r.meta.namespace, r.meta.name, r.meta.uid, Decimal(r.replicas),
          StringMapFingerprint(r.meta.labels), StringMapFingerprint(r.conditions), OwnerReferenceFingerprint(r.ownerReferences)], "/")
  }

  function PodFingerprint(p: KubePod): string {
    Join([p.meta.namespace, p.meta.name, p.meta.uid, p.nodeName, p.serviceAccount, p.phase, p.reason,
          StringMapFingerprint(p.meta.labels), OwnerReferenceFingerprint(p.ownerReferences), StringSliceFingerprint(p.containerImages),
          StringSliceFingerprint(p.configMapRefs), StringSliceFingerprint(p.secretRefs), StringSliceFingerprint(p.pvcRefs)], "/")
  }

  function ServiceFingerprint(v: KubeService): string {
    Join([v.meta.namespace, v.meta.name, v.meta.uid, StringMapFingerprint(v.meta.labels), StringMapFingerprint(v.selector)], "/")
  }

  function PVCFingerprint(p: KubePVC): string {
    Join(["pvc", p.meta.namespace, p.meta.name, p.meta.uid, p.volumeName, p.storageClassName, p.status], "/")
  }

  function PVFingerprint(p: KubePV): string {
    Join(["pv", p.meta.name, p.meta.uid, p.storageClassName, p.status, StringMapFingerprint(p.csi)], "/")
  }

  function StorageClassFingerprint(x: KubeStorageClass): string {
    Join(["storageclass", x.meta.name, x.meta.uid, x.provisioner, x.reclaimPolicy, x.volumeBindingMode], "/")
  }

  function CSIDriverFingerprint(d: KubeNamed): string { Join(["csidriver", d.meta.name, d.meta.uid], "/") }

  function EventFingerprint(e: KubeEvent): string {
    Join([e.meta.namespace, e.meta.name, e.meta.uid, e.involvedKind, e.involvedName, e.reason, e.message], "/")
  }

  function ServiceAccountFingerprint(a: KubeNamed): string { Join(["sa", a.meta.namespace, a.meta.name, a.meta.uid], "/") }

  function RoleBindingFingerprint(b: KubeBinding): string {
    Join(["rb", b.meta.namespace, b.meta.name, b.meta.uid, b.roleRef, SubjectFingerprint(b)], "/")
  }

  function ClusterRoleBindingFingerprint(b: KubeBinding): string {
    Join(["crb", b.meta.name, b.meta.uid, b.roleRef, SubjectFingerprint(b)], "/")
  }

  // ---- References: one fingerprint per namespace and name ----

  datatype Ref = Ref(namespace: string, name: string, fingerprint: string)

  function PodRefF(): KubePod -> seq<Ref> { (p: KubePod) => [Ref(p.meta.namespace, p.meta.name, PodFingerprint(p))] }
  function ServiceRefF(): KubeService -> seq<Ref> { (v: KubeService) => [Ref(v.meta.namespace, v.meta.name, ServiceFingerprint(v))] }
  function PVCRefF(): KubePVC -> seq<Ref> { (p: KubePVC) => [Ref(p.meta.namespace, p.meta.name, PVCFingerprint(p))] }
  function PVRefF(): KubePV -> seq<Ref> { (p: KubePV) => [Ref("", p.meta.name, PVFingerprint(p))] }
  function StorageClassRefF(): KubeStorageClass -> seq<Ref> {
    (x: KubeStorageClass) => [Ref("", x.meta.name, StorageClassFingerprint(x))]
  }
  function CSIDriverRefF(): KubeNamed -> seq<Ref> { (d: KubeNamed) => [Ref("", d.meta.name, CSIDriverFingerprint(d))] }
  function EventRefF(): KubeEvent -> seq<Ref> { (e: KubeEvent) => [Ref(e.meta.namespace, e.meta.name, EventFingerprint(e))] }
  function ServiceAccountRefF(): KubeNamed -> seq<Ref> {
    (a: KubeNamed) => [Ref(a.meta.namespace, a.meta.name, ServiceAccountFingerprint(a))]
  }
  function RoleBindingRefF(): KubeBinding -> seq<Ref> {
    (b: KubeBinding) => [Ref(b.meta.namespace, b.meta.name, RoleBindingFingerprint(b))]
  }
  function ClusterRoleBindingRefF(): KubeBinding -> seq<Ref> {
    (b: KubeBinding) => [Ref("", b.meta.name, ClusterRoleBindingFingerprint(b))]
  }

  // Workloads share a reference with each other and with the replica sets they own.

  datatype Contribution = Contribution(key: string, fingerprint: string)

  function WorkloadPartF(): KubeWorkload -> seq<Contribution> {
    (w: KubeWorkload) => [Contribution(MetaKey(w.meta), WorkloadFingerprint(w))]
  }

  function TargetPartF(fingerprint: string): WorkloadTarget -> seq<Contribution> {
    (t: WorkloadTarget) => [Contribution(NsName(t.namespace, t.name), fingerprint)]
  }

  /** A replica set counts towards each workload that owns it, or towards itself. */
  function ReplicaSetPartF(r: Resolver): KubeReplicaSet -> seq<Contribution> {
    (x: KubeReplicaSet) =>
      var targets := ResolveReferences(r, x.meta.namespace, x.ownerReferences);
      if targets == [] then [Contribution(MetaKey(x.meta), ReplicaSetFingerprint(x))] else Flat(targets, TargetPartF(ReplicaSetFingerprint(x)))
  }

  function StreamResolver(s: Snapshot): Resolver { NewChainResolver("stream", s.workloads, s.replicaSets) }

  function Contributions(s: Snapshot): seq<Contribution> {
    Flat(s.workloads, WorkloadPartF()) + Flat(s.replicaSets, ReplicaSetPartF(StreamResolver(s)))
  }

  function At(cs: seq<Contribution>, key: string): seq<string> {
    if cs == [] then []
    else At(cs[..|cs| - 1], key) + if cs[|cs| - 1].key == key then [cs[|cs| - 1].fingerprint] else []
  }

  function KeysOf(cs: seq<Contribution>): set<string> { set c | c in cs :: c.key }

  /** strings.Cut at the first slash. */
  function Cut(s: string): (string, string) {
    if s == "" then ("", "")
    else if s[0] == '/' then ("", s[1..])
    else ([s[0]] + Cut(s[1..]).0, Cut(s[1..]).1)
  }

  lemma {:induction false} CutRejoins(s: string)
    requires '/' in s
    ensures Cut(s).0 + "/" + Cut(s).1 == s
  {
    if s[0] != '/' {
      assert s == [s[0]] + s[1..];
      CutRejoins(s[1..]);
    } else {
      assert s == "/" + s[1..];
    }
  }

  function CutKey(): string -> seq<string> { (key: string) => [Cut(key).0, Cut(key).1] }

  function GroupF(cs: seq<Contribution>): string -> seq<Ref> {
    (key: string) => [Ref(Cut(key).0, Cut(key).1, SortedJoin(At(cs, key), "|"))]
  }

  /** The contributions under each key joined, the keys in order of namespace, then name. */
  function GroupedRefs(cs: seq<Contribution>): seq<Ref> {
    Flat(SortBy(InOrder(KeysOf(cs)), CutKey()), GroupF(cs))
  }

  function WorkloadRefs(s: Snapshot): seq<Ref> {
    GroupedRefs(Contributions(s))
  }

  function StorageRefs(s: Snapshot): seq<Ref> {
    Flat(s.pvcs, PVCRefF()) + Flat(s.pvs, PVRefF()) + Flat(s.storageClasses, StorageClassRefF()) + Flat(s.csiDrivers, CSIDriverRefF())
  }

  function IdentityRefs(s: Snapshot): seq<Ref> {
    Flat(s.serviceAccounts, ServiceAccountRefF()) + Flat(s.roleBindings, RoleBindingRefF())
    + Flat(s.clusterRoleBindings, ClusterRoleBindingRefF())
  }

  datatype Category = Workloads | Pods | Services | Storage | Events | Identities

  const CATEGORIES := [Workloads, Pods, Services, Storage, Events, Identities]

  function CategoryName(c: Category): string {
    match c
    case Workloads => "workload"
    case Pods => "pod"
    case Services => "service"
    case Storage => "storage"
    case Events => "event"
    case Identities => "identity/security"
  }

  function RefsOf(s: Snapshot, c: Category): seq<Ref> {
    match c
    case Workloads => WorkloadRefs(s)
    case Pods => Flat(s.pods, PodRefF())
    case Services => Flat(s.services, ServiceRefF())
    case Storage => StorageRefs(s)
    case Events => Flat(s.events, EventRefF())
    case Identities => IdentityRefs(s)
  }

  function FingerprintF(): Ref -> seq<string> { (r: Ref) => [r.fingerprint] }

  /** The joined, sorted fingerprints of a category. */
  function Joined(s: Snapshot, c: Category): string {
    SortedJoin(Flat(RefsOf(s, c), FingerprintF()), "|")
  }

  const NUL := "\U{0}"

  function CategoryInput(s: Snapshot, c: Category): string {
    CategoryName(c) + NUL + Joined(s, c) + NUL
  }

  function CategoryInputF(s: Snapshot): Category -> string { (c: Category) => CategoryInput(s, c) }

  /** The bytes the snapshot's hash is taken over. */
  function TotalInput(s: Snapshot): string { Flat(CATEGORIES, CategoryInputF(s)) }

  // ---- The workload references as the source groups them ----

  lemma AtStep(cs: seq<Contribution>, i: nat, key: string)
    requires i < |cs|
    ensures At(cs[..i + 1], key) == At(cs[..i], key) + if cs[i].key == key then [cs[i].fingerprint] else []
  {
    assert cs[..i + 1][..i] == cs[..i];
  }

  ghost predicate Grouped(cs: seq<Contribution>, byKey: map<string, seq<string>>) {
    byKey.Keys == KeysOf(cs) && (forall k | k in byKey :: byKey[k] == At(cs, k)) && forall k | k !in byKey :: At(cs, k) == []
  }

  lemma GroupedStep(cs: seq<Contribution>, i: nat, byKey: map<string, seq<string>>)
    requires i < |cs| && Grouped(cs[..i], byKey)
    ensures var key := cs[i].key;
            Grouped(cs[..i + 1], byKey[key := (if key in byKey then byKey[key] else []) + [cs[i].fingerprint]])
  {
    hide At, KeysOf;
    KeysStep(cs, i);
    var key := cs[i].key;
    var grown := byKey[key := (if key in byKey then byKey[key] else []) + [cs[i].fingerprint]];
    forall k
      ensures k in grown ==> grown[k] == At(cs[..i + 1], k)
      ensures k !in grown ==> At(cs[..i + 1], k) == []
    {
      AtStep(cs, i, k);
    }
  }

  lemma KeysStep(cs: seq<Contribution>, i: nat)
    requires i < |cs|
    ensures KeysOf(cs[..i + 1]) == KeysOf(cs[..i]) + {cs[i].key}
  {
    PrefixStep(cs, i);
  }

  method Group(cs: seq<Contribution>) returns (byKey: map<string, seq<string>>)
    ensures byKey.Keys == KeysOf(cs) && forall k | k in byKey :: byKey[k] == At(cs, k)
  {
    byKey := map[];
    for i := 0 to |cs|
      invariant Grouped(cs[..i], byKey)
    {
      hide Grouped;
      GroupedStep(cs, i, byKey);
      var key := cs[i].key;
      byKey := byKey[key := (if key in byKey then byKey[key] else []) + [cs[i].fingerprint]];
    }
    PrefixEnds(cs);
  }

  lemma KeysHoldSlashes(s: Snapshot)
    ensures forall k | k in KeysOf(Contributions(s)) :: '/' in k
  {
    FlatMembers(s.workloads, WorkloadPartF());
    FlatMembers(s.replicaSets, ReplicaSetPartF(StreamResolver(s)));
    hide Flat, StreamResolver, ResolveReferences, WorkloadFingerprint, ReplicaSetFingerprint;
    forall c | c in Contributions(s)
      ensures '/' in c.key
    {
      if c in Flat(s.workloads, WorkloadPartF()) {
        var w :| w in s.workloads && c in WorkloadPartF()(w);
        assert MetaKey(w.meta)[|w.meta.namespace|] == '/';
      } else {
        var x :| x in s.replicaSets && c in ReplicaSetPartF(StreamResolver(s))(x);
        var targets := ResolveReferences(StreamResolver(s), x.meta.namespace, x.ownerReferences);
        if targets == [] {
          assert MetaKey(x.meta)[|x.meta.namespace|] == '/';
        } else {
          FlatMembers(targets, TargetPartF(ReplicaSetFingerprint(x)));
          var t :| t in targets && c in TargetPartF(ReplicaSetFingerprint(x))(t);
          assert NsName(t.namespace, t.name)[|t.namespace|] == '/';
        }
      }
    }
  }

  lemma CutKeyIs(a: string)
    ensures CutKey()(a) == [Cut(a).0, Cut(a).1]
  {
  }

  lemma CutIsInjective(a: string, b: string)
    requires '/' in a && '/' in b && CutKey()(a) == CutKey()(b)
    ensures a == b
  {
    hide Cut, CutKey;
    CutRejoins(a);
    CutRejoins(b);
    CutKeyIs(a);
    CutKeyIs(b);
    var x, y := [Cut(a).0, Cut(a).1], [Cut(b).0, Cut(b).1];
    assert x[0] == y[0] && x[1] == y[1];
  }

  lemma CutTellsApart(keys: set<string>)
    requires forall k | k in keys :: '/' in k
    ensures forall a, b | a in keys && b in keys && CutKey()(a) == CutKey()(b) :: a == b
  {
    hide CutKey;
    forall a, b | a in keys && b in keys && CutKey()(a) == CutKey()(b)
      ensures a == b
    {
      CutIsInjective(a, b);
    }
  }

  /** Group keys sorted by namespace and name come out the same from any order. */
  lemma GroupKeysForgetOrder(keys: seq<string>, all: set<string>)
    requires Distinct(keys) && (forall k :: k in keys <==> k in all) && forall k | k in all :: '/' in k
    ensures SortBy(keys, CutKey()) == SortBy(InOrder(all), CutKey())
    ensures forall k :: k in SortBy(keys, CutKey()) <==> k in all
  {
    hide InOrder, SortBy, CutKey, Less;
    InOrderLists(all);
    AscendingIsSorted(InOrder(all));
    DistinctListsPermute(keys, InOrder(all));
    CutTellsApart(all);
    SortForgetsOrder(keys, InOrder(all), CutKey());
    SortKeeps(keys, CutKey());
    SameElements(keys, SortBy(keys, CutKey()));
  }

  /** The groups come out of a map in any order and are sorted by namespace, then name. */
  method GroupedKeys(byKey: map<string, seq<string>>) returns (sorted: seq<string>)
    requires forall k | k in byKey :: '/' in k
    ensures sorted == SortBy(InOrder(byKey.Keys), CutKey()) && forall k :: k in sorted <==> k in byKey
  {
    hide InOrder, SortBy, CutKey;
    var keys: seq<string> := [];
    var rest := byKey.Keys;
    while rest != {}
      invariant rest <= byKey.Keys && Distinct(keys) && forall k :: k in keys <==> k in byKey && k !in rest
    {
      var k :| k in rest;
      keys, rest := keys + [k], rest - {k};
    }
    GroupKeysForgetOrder(keys, byKey.Keys);
    sorted := SortBy(keys, CutKey());
  }

  function FromMapF(byKey: map<string, seq<string>>): string -> seq<Ref> {
    (key: string) => if key in byKey then [Ref(Cut(key).0, Cut(key).1, SortedJoin(byKey[key], "|"))] else []
  }

  lemma FromMapIs(cs: seq<Contribution>, byKey: map<string, seq<string>>, key: string)
    requires key in byKey && byKey[key] == At(cs, key)
    ensures FromMapF(byKey)(key) == GroupF(cs)(key)
  {
    hide Cut, SortedJoin, At;
  }

  method GroupContributions(cs: seq<Contribution>) returns (refs: seq<Ref>)
    requires forall k | k in KeysOf(cs) :: '/' in k
    ensures refs == GroupedRefs(cs)
  {
    hide SortBy, InOrder, At, KeysOf, GroupF, FromMapF, Flat, CutKey;
    var byKey := Group(cs);
    var sorted := GroupedKeys(byKey);
    refs := Append([], sorted, FromMapF(byKey));
    forall key | key in sorted { FromMapIs(cs, byKey, key); }
    SameFlat(sorted, FromMapF(byKey), GroupF(cs));
    assert [] + refs == refs;
  }

  method WorkloadRefFingerprints(s: Snapshot) returns (refs: seq<Ref>)
    ensures refs == WorkloadRefs(s)
  {
    hide GroupedRefs, StreamResolver, ReplicaSetPartF, WorkloadPartF, KeysOf;
    KeysHoldSlashes(s);
    var cs := Append([], s.workloads, WorkloadPartF());
    cs := Append(cs, s.replicaSets, ReplicaSetPartF(StreamResolver(s)));
    refs := GroupContributions(cs);
  }
}
