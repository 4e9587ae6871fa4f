/** What the fingerprint of each kind of object tells: everything it is made of, up to the order of lists. */
module FingerprintReading {
  import opened Identity
  import opened Strings
  import opened GraphModel
  import opened Resources
  import opened SnapshotOrder
  import opened Fingerprints
  import opened Splitting
  import opened MapReading

  /** A field of its own: free of slashes and of the outer separators. */
  predicate Clean(s: string) { '/' !in s && Fit(s) }

  /** An element of a list. */
  predicate Listed(s: string) { s != "" && ',' !in s && Fit(s) }

  // ---- Lists ----

  lemma SliceTells(xs: seq<string>, ys: seq<string>)
    requires (forall x | x in xs :: Listed(x)) && (forall y | y in ys :: Listed(y)) && StringSliceFingerprint(xs) == StringSliceFingerprint(ys)
    ensures multiset(xs) == multiset(ys)
  {
    SortedJoinTells(xs, ys, ',');
  }

  predicate ReadableRef(r: OwnerReference) {
    Clean(r.kind) && Clean(r.name) && Clean(r.uid) && Fit(r.apiVersion)
    && ',' !in r.apiVersion && ',' !in r.kind && ',' !in r.name && ',' !in r.uid
  }

  function Flag(b: bool): string { if b then "true" else "false" }

  lemma RefPartTells(r: OwnerReference, q: OwnerReference)
    requires ReadableRef(r) && ReadableRef(q) && RefPart(r) == RefPart(q)
    ensures r == q
  {
    var a, b := [r.kind, r.name, r.uid, Flag(r.controller)], [q.kind, q.name, q.uid, Flag(q.controller)];
    assert [r.apiVersion] + a == [r.apiVersion, r.kind, r.name, r.uid, Flag(r.controller)];
    assert [q.apiVersion] + b == [q.apiVersion, q.kind, q.name, q.uid, Flag(q.controller)];
    RightFields([r.apiVersion], a, [q.apiVersion], b);
    assert a[0] == b[0] && a[1] == b[1] && a[2] == b[2] && a[3] == b[3];
    assert |Flag(true)| != |Flag(false)|;
  }

  /** The text ends in the flag of an owner reference. */
  predicate EndsInFlag(s: string) {
    HasSuffix(s, "true") || HasSuffix(s, "false")
  }

  lemma RefPartIsFlagged(r: OwnerReference)
    ensures HasSuffix(RefPart(r), "/true") || HasSuffix(RefPart(r), "/false")
  {
    var init, flag := [r.apiVersion, r.kind, r.name, r.uid], Flag(r.controller);
    assert [r.apiVersion, r.kind, r.name, r.uid, flag] == init + [flag];
    JoinSplits(init, [flag]);
    assert Join([flag], "/") == flag;
    hide Join;
    var s, front := RefPart(r), Join(init, "/");
    assert s == front + "/" + flag;
    assert s[|front|..] == "/" + flag;
    assert "/" + "true" == "/true" && "/" + "false" == "/false";
  }

  lemma RefPartsAreWhole(r: OwnerReference)
    requires ReadableRef(r)
    ensures Whole(RefPart(r), ',') && Fit(RefPart(r)) && (HasSuffix(RefPart(r), "/true") || HasSuffix(RefPart(r), "/false"))
  {
    var parts := [r.apiVersion, r.kind, r.name, r.uid, Flag(r.controller)];
    RefPartIsFlagged(r);
    hide Join, HasSuffix;
    assert forall p | p in parts :: ',' !in p && Fit(p);
    JoinAvoids(parts, "/", ',');
    FitJoin(parts, "/");
    SuffixIsSome(RefPart(r));
  }

  lemma SuffixIsSome(s: string)
    requires HasSuffix(s, "/true") || HasSuffix(s, "/false")
    ensures s != ""
  {
  }

  lemma RefsAreWhole(refs: seq<OwnerReference>)
    requires forall r | r in refs :: ReadableRef(r)
    ensures forall p | p in Flat(refs, RefPartF()) :: Whole(p, ',') && Fit(p) && (HasSuffix(p, "/true") || HasSuffix(p, "/false"))
  {
    FlatMembers(refs, RefPartF());
    forall r | r in refs { RefPartsAreWhole(r); }
    hide RefPart, Whole, Fit, HasSuffix;
  }

  lemma OwnersTell(refs: seq<OwnerReference>, others: seq<OwnerReference>)
    requires (forall r | r in refs :: ReadableRef(r)) && forall r | r in others :: ReadableRef(r)
    requires OwnerReferenceFingerprint(refs) == OwnerReferenceFingerprint(others)
    ensures multiset(refs) == multiset(others)
  {
    RefsAreWhole(refs);
    RefsAreWhole(others);
    hide RefPart, Whole, ReadableRef, SortedJoin, HasSuffix, Fit, Flat;
    SortedJoinTells(Flat(refs, RefPartF()), Flat(others, RefPartF()), ',');
    forall r, q | r in refs && q in others && RefPartF()(r) == RefPartF()(q)
      ensures r == q
    {
      assert RefPart(r) == [RefPart(r)][0] && RefPart(q) == [RefPart(q)][0];
      RefPartTells(r, q);
    }
    ToldByContributions(refs, others, RefPartF(), (r: OwnerReference, q: OwnerReference) => r == q);
    EqualElements(refs, others);
  }

  lemma FitOwners(refs: seq<OwnerReference>)
    requires forall r | r in refs :: ReadableRef(r)
    ensures Fit(OwnerReferenceFingerprint(refs))
  {
    RefsAreWhole(refs);
    hide RefPart, Whole, ReadableRef, SortedJoin;
    FitSortedJoin(Flat(refs, RefPartF()), ",");
  }

  // ---- Workloads and replica sets ----

  predicate ReadableMeta(m: Metadata) { Clean(m.namespace) && Clean(m.name) && Clean(m.uid) }

  /** An API version is a version, or a group and a version. */
  predicate ReadableVersion(v: string) { Fit(v) && '/' !in Cut(v).1 }

  predicate ReadableWorkload(w: KubeWorkload) {
    ReadableMeta(w.meta) && LikeUID(w.meta.uid) && Clean(w.controllerKind) && '-' !in w.controllerKind && ReadableVersion(w.apiVersion)
    && LabelMap(w.meta.labels) && LabelMap(w.conditions) && forall r | r in w.ownerReferences :: ReadableRef(r)
  }

  predicate ReadableReplicaSet(x: KubeReplicaSet) {
    ReadableMeta(x.meta) && LikeUID(x.meta.uid)
    && LabelMap(x.meta.labels) && LabelMap(x.conditions) && forall r | r in x.ownerReferences :: ReadableRef(r)
  }

  lemma {:induction false} CutIsSlashless(s: string)
    ensures '/' !in Cut(s).0 && ('/' !in s ==> Cut(s) == (s, ""))
  {
    if s != "" && s[0] != '/' {
      assert s == [s[0]] + s[1..];
      CutIsSlashless(s[1..]);
    }
  }

  lemma DecimalsAreClean(n: int)
    ensures Clean(Decimal(n)) && !LikeUID(Decimal(n))
  {
    DecimalsAreNoUIDs(n);
    hide Decimal;
  }

  /** The fields in front of the labels. */
  function WorkloadFront(w: KubeWorkload): seq<string> {
    [w.meta.namespace]
    + (if '/' in w.apiVersion then [Cut(w.apiVersion).0, Cut(w.apiVersion).1] else [w.apiVersion])
    + [w.controllerKind, w.meta.name, w.meta.uid, Decimal(w.replicas)]
  }

  function Rest(labels: Labels, conditions: Labels, refs: seq<OwnerReference>): seq<string> {
    [StringMapFingerprint(labels), StringMapFingerprint(conditions), OwnerReferenceFingerprint(refs)]
  }

  lemma JoinOne(a: string, rest: seq<string>)
    requires rest != []
    ensures Join([a] + rest, "/") == a + "/" + Join(rest, "/")
  {
    JoinSplits([a], rest);
  }

  lemma WorkloadFields(w: KubeWorkload)
    requires ReadableWorkload(w)
    ensures WorkloadFingerprint(w) == Join(WorkloadFront(w) + Rest(w.meta.labels, w.conditions, w.ownerReferences), "/")
    ensures Slashless(WorkloadFront(w))
  {
    DecimalsAreClean(w.replicas);
    CutIsSlashless(w.apiVersion);
    hide StringMapFingerprint, OwnerReferenceFingerprint, Decimal, Join, Cut;
    var tail := [w.controllerKind, w.meta.name, w.meta.uid, Decimal(w.replicas)] + Rest(w.meta.labels, w.conditions, w.ownerReferences);
    var plain := [w.meta.namespace] + ([w.apiVersion] + tail);
    assert WorkloadFingerprint(w) == Join(plain, "/") by {
      assert plain == [w.meta.namespace, w.apiVersion, w.controllerKind, w.meta.name, w.meta.uid, Decimal(w.replicas),
                       StringMapFingerprint(w.meta.labels), StringMapFingerprint(w.conditions), OwnerReferenceFingerprint(w.ownerReferences)];
    }
    if '/' in w.apiVersion {
      var g, v := Cut(w.apiVersion).0, Cut(w.apiVersion).1;
      CutRejoins(w.apiVersion);
      JoinOne(w.meta.namespace, [w.apiVersion] + tail);
      JoinOne(w.apiVersion, tail);
      JoinOne(w.meta.namespace, [g] + ([v] + tail));
      JoinOne(g, [v] + tail);
      JoinOne(v, tail);
      assert g + "/" + v + "/" + Join(tail, "/") == g + "/" + (v + "/" + Join(tail, "/"));
      assert WorkloadFront(w) + Rest(w.meta.labels, w.conditions, w.ownerReferences) == [w.meta.namespace] + ([g] + ([v] + tail));
    } else {
      assert WorkloadFront(w) + Rest(w.meta.labels, w.conditions, w.ownerReferences) == plain;
    }
  }

  function ReplicaSetFront(x: KubeReplicaSet): seq<string> {
    ["replicaset", x.meta.namespace, x.meta.name, x.meta.uid, Decimal(x.replicas)]
  }

  lemma ReplicaSetFields(x: KubeReplicaSet)
    requires ReadableReplicaSet(x)
    ensures ReplicaSetFingerprint(x) == Join(ReplicaSetFront(x) + Rest(x.meta.labels, x.conditions, x.ownerReferences), "/")
    ensures Slashless(ReplicaSetFront(x))
  {
    DecimalsAreClean(x.replicas);
    hide StringMapFingerprint, OwnerReferenceFingerprint, Decimal, Join;
    assert ReplicaSetFront(x) + Rest(x.meta.labels, x.conditions, x.ownerReferences) ==
      ["replicaset", x.meta.namespace, x.meta.name, x.meta.uid, Decimal(x.replicas),
       StringMapFingerprint(x.meta.labels), StringMapFingerprint(x.conditions), OwnerReferenceFingerprint(x.ownerReferences)];
  }

  lemma RestTells(l: Labels, c: Labels, r: seq<OwnerReference>, m: Labels, d: Labels, q: seq<OwnerReference>)
    requires LabelMap(l) && LabelMap(c) && LabelMap(m) && LabelMap(d)
    requires (forall x | x in r :: ReadableRef(x)) && (forall x | x in q :: ReadableRef(x))
    requires Join(Rest(l, c, r), "/") == Join(Rest(m, d, q), "/")
    ensures l == m && c == d && multiset(r) == multiset(q)
  {
    hide StringMapFingerprint, OwnerReferenceFingerprint, Join, LabelMap, ReadableRef;
    var c1, r1, d1, q1 := StringMapFingerprint(c), OwnerReferenceFingerprint(r), StringMapFingerprint(d), OwnerReferenceFingerprint(q);
    RestText(l, c, r);
    RestText(m, d, q);
    MapInFront(l, c1 + "/" + r1, m, d1 + "/" + q1);
    MapInFront(c, r1, d, q1);
    OwnersTell(r, q);
  }

  lemma RestText(l: Labels, c: Labels, r: seq<OwnerReference>)
    ensures Join(Rest(l, c, r), "/") == StringMapFingerprint(l) + "/" + (StringMapFingerprint(c) + "/" + OwnerReferenceFingerprint(r))
  {
    hide StringMapFingerprint, OwnerReferenceFingerprint;
    var x, y, z := StringMapFingerprint(l), StringMapFingerprint(c), OwnerReferenceFingerprint(r);
    assert Rest(l, c, r) == [x] + ([y] + [z]);
    JoinOne(x, [y] + [z]);
    JoinOne(y, [z]);
  }

  lemma Regrouped<T>(b: seq<T>, y: seq<T>, n: nat)
    requires n <= |b|
    ensures b + y == b[..n] + (b[n..] + y)
  {
    var p, q := b[..n], b[n..];
    assert b == p + q;
    assert (p + q) + y == p + (q + y);
  }

  lemma FrontIsSlashless(b: seq<string>, n: nat)
    requires n <= |b| && Slashless(b)
    ensures Slashless(b[..n])
  {
    forall i | 0 <= i < n
      ensures '/' !in b[..n][i]
    {
      assert b[i] in b;
    }
  }

  lemma FrontsOfOneLength(a: seq<string>, x: seq<string>, p: seq<string>, y: seq<string>)
    requires |a| == |p| && x != [] && y != [] && Slashless(a) && Slashless(p) && Join(a + x, "/") == Join(p + y, "/")
    ensures a == p && Join(x, "/") == Join(y, "/")
  {
    hide Join, Slashless;
    assert (a + x)[..|a|] == a && (p + y)[..|a|] == p;
    assert (a + x)[|a|..] == x && (p + y)[|a|..] == y;
    LeftFields(a + x, p + y, |a|);
  }

  /** Fronts of one length are read off together; the rest is what is left. */
  lemma FrontsTell(a: seq<string>, x: seq<string>, b: seq<string>, y: seq<string>)
    requires |a| <= |b| && x != [] && y != [] && Slashless(a) && Slashless(b) && Join(a + x, "/") == Join(b + y, "/")
    ensures a == b[..|a|] && Join(x, "/") == Join(b[|a|..] + y, "/")
  {
    hide Join;
    var p, q := b[..|a|], b[|a|..];
    FrontIsSlashless(b, |a|);
    hide Slashless;
    Regrouped(b, y, |a|);
    FrontsOfOneLength(a, x, p, q + y);
  }

  lemma VersionsTell(v: string, w: string)
    requires ('/' in v <==> '/' in w)
    requires if '/' in v then Cut(v) == Cut(w) else v == w
    ensures v == w
  {
    if '/' in v {
      CutRejoins(v);
      CutRejoins(w);
    }
  }

  /** A workload's fingerprint tells the workload, up to the order of its owner references. */
  lemma WorkloadTold(v: KubeWorkload, w: KubeWorkload)
    requires ReadableWorkload(v) && ReadableWorkload(w) && WorkloadFingerprint(v) == WorkloadFingerprint(w)
    ensures SameWorkload(v, w)
  {
    WorkloadFields(v);
    WorkloadFields(w);
    if '/' in v.apiVersion && '/' !in w.apiVersion {
      ShorterVersionDiffers(w, v);
    } else if '/' in w.apiVersion && '/' !in v.apiVersion {
      ShorterVersionDiffers(v, w);
    } else {
      hide WorkloadFingerprint, Join, Decimal, Rest, ReadableRef, LabelMap, LikeUID, Fit, Cut, Slashless;
      var a, b := WorkloadFront(v), WorkloadFront(w);
      FrontsTell(a, Rest(v.meta.labels, v.conditions, v.ownerReferences), b, Rest(w.meta.labels, w.conditions, w.ownerReferences));
      assert a == b && b[|a|..] + Rest(w.meta.labels, w.conditions, w.ownerReferences) == Rest(w.meta.labels, w.conditions, w.ownerReferences);
      RestTells(v.meta.labels, v.conditions, v.ownerReferences, w.meta.labels, w.conditions, w.ownerReferences);
      SameFronts(v, w);
    }
  }

  lemma SameFronts(v: KubeWorkload, w: KubeWorkload)
    requires WorkloadFront(v) == WorkloadFront(w) && ('/' in v.apiVersion <==> '/' in w.apiVersion)
    ensures v.meta.namespace == w.meta.namespace && v.apiVersion == w.apiVersion && v.controllerKind == w.controllerKind
    ensures v.meta.name == w.meta.name && v.meta.uid == w.meta.uid && v.replicas == w.replicas
  {
    hide Decimal, Cut;
    var a, b := WorkloadFront(v), WorkloadFront(w);
    assert a[0] == b[0] && a[1] == b[1] && a[2] == b[2] && a[3] == b[3] && a[4] == b[4] && a[5] == b[5] && a[|a| - 1] == b[|a| - 1];
    VersionsTell(v.apiVersion, w.apiVersion);
    DecimalTells(v.replicas, w.replicas);
  }

  /** A missing group would put a replica count where the UID is. */
  lemma CountInPlaceOfUID(v: KubeWorkload, w: KubeWorkload)
    requires ReadableWorkload(v) && ReadableWorkload(w) && '/' !in v.apiVersion && '/' in w.apiVersion
    requires WorkloadFingerprint(v) == WorkloadFingerprint(w)
    ensures Decimal(v.replicas) == w.meta.uid
  {
    WorkloadFields(v);
    WorkloadFields(w);
    hide WorkloadFingerprint, Join, Decimal, Rest, ReadableRef, LabelMap, LikeUID, Fit, Cut, Slashless;
    var a, b := WorkloadFront(v), WorkloadFront(w);
    FrontsTell(a, Rest(v.meta.labels, v.conditions, v.ownerReferences), b, Rest(w.meta.labels, w.conditions, w.ownerReferences));
    assert a[5] == b[..|a|][5];
  }

  lemma ShorterVersionDiffers(v: KubeWorkload, w: KubeWorkload)
    requires ReadableWorkload(v) && ReadableWorkload(w) && '/' !in v.apiVersion && '/' in w.apiVersion
    ensures WorkloadFingerprint(v) != WorkloadFingerprint(w)
  {
    hide WorkloadFingerprint, Decimal, ReadableRef, LabelMap, LikeUID, Fit, Cut;
    DecimalsAreClean(v.replicas);
    if WorkloadFingerprint(v) == WorkloadFingerprint(w) {
      CountInPlaceOfUID(v, w);
    }
  }

  /** A replica set's fingerprint tells the replica set, up to the order of its owner references. */
  lemma ReplicaSetTold(x: KubeReplicaSet, y: KubeReplicaSet)
    requires ReadableReplicaSet(x) && ReadableReplicaSet(y) && ReplicaSetFingerprint(x) == ReplicaSetFingerprint(y)
    ensures SameReplicaSet(x, y)
  {
    ReplicaSetFields(x);
    ReplicaSetFields(y);
    hide ReplicaSetFingerprint, Join, Decimal, Rest, ReadableRef, LabelMap, LikeUID, Fit, Slashless;
    var a, b := ReplicaSetFront(x), ReplicaSetFront(y);
    FrontsTell(a, Rest(x.meta.labels, x.conditions, x.ownerReferences), b, Rest(y.meta.labels, y.conditions, y.ownerReferences));
    assert b[..|a|] == b && b[|a|..] + Rest(y.meta.labels, y.conditions, y.ownerReferences) == Rest(y.meta.labels, y.conditions, y.ownerReferences);
    RestTells(x.meta.labels, x.conditions, x.ownerReferences, y.meta.labels, y.conditions, y.ownerReferences);
    assert a[1] == b[1] && a[2] == b[2] && a[3] == b[3] && a[4] == b[4];
    DecimalTells(x.replicas, y.replicas);
  }

  lemma UIDOutOfPlace(w: KubeWorkload, x: KubeReplicaSet)
    requires ReadableWorkload(w) && ReadableReplicaSet(x) && WorkloadFingerprint(w) == ReplicaSetFingerprint(x)
    ensures if '/' in w.apiVersion then w.controllerKind == x.meta.uid else w.meta.uid == Decimal(x.replicas)
  {
    WorkloadFields(w);
    ReplicaSetFields(x);
    hide WorkloadFingerprint, ReplicaSetFingerprint, Join, Decimal, Rest, ReadableRef, LabelMap, LikeUID, Fit, Cut, Slashless;
    var a, b := ReplicaSetFront(x), WorkloadFront(w);
    FrontsTell(a, Rest(x.meta.labels, x.conditions, x.ownerReferences), b, Rest(w.meta.labels, w.conditions, w.ownerReferences));
    assert a[3] == b[..|a|][3] && a[4] == b[..|a|][4];
  }

  /** No fingerprint is both a workload's and a replica set's. */
  lemma WorkloadsAreNoReplicaSets(w: KubeWorkload, x: KubeReplicaSet)
    requires ReadableWorkload(w) && ReadableReplicaSet(x)
    ensures WorkloadFingerprint(w) != ReplicaSetFingerprint(x)
  {
    hide WorkloadFingerprint, ReplicaSetFingerprint, Decimal, ReadableRef, LabelMap, Fit, Cut;
    DecimalsAreClean(x.replicas);
    if WorkloadFingerprint(w) == ReplicaSetFingerprint(x) {
      UIDOutOfPlace(w, x);
    }
  }
}
