/** What the fingerprints of pods, services, storage, events and identities tell, and that none is split or dropped. */
module ObjectReading {
  import opened Identity
  import opened Strings
  import opened Sorting
  import opened GraphModel
  import opened Resources
  import opened SnapshotOrder
  import opened Fingerprints
  import opened Splitting
  import opened MapReading
  import opened FingerprintReading

  // ---- Pods ----

  /** No path segment reads like the flag of an owner reference. */
  ghost predicate Flagless(s: string) {
    forall i | 0 <= i < |s| && s[i] == '/' :: !EndsInFlag(s[..i])
  }

  ghost predicate ReadableImage(s: string) { Listed(s) && Flagless(s) }

  predicate ReadableName(s: string) { Listed(s) && '/' !in s }

  ghost predicate ReadablePod(p: KubePod) {
    ReadableMeta(p.meta) && Clean(p.nodeName) && Clean(p.serviceAccount) && Clean(p.phase) && Clean(p.reason) && LabelMap(p.meta.labels)
    && (forall r | r in p.ownerReferences :: ReadableRef(r)) && (forall i | i in p.containerImages :: ReadableImage(i))
    && (forall n | n in p.configMapRefs :: ReadableName(n)) && (forall n | n in p.secretRefs :: ReadableName(n))
    && forall n | n in p.pvcRefs :: ReadableName(n)
  }

  /** A suffix free of the separator is a suffix of what follows the separator. */
  lemma SuffixAfter(a: string, c: char, u: string, x: string)
    requires c !in x
    ensures HasSuffix(a + [c] + u, x) <==> HasSuffix(u, x)
  {
    var s := a + [c] + u;
    assert s[|a| + 1..] == u;
    if HasSuffix(s, x) {
      var k := |s| - |x|;
      assert forall i | k <= i < |s| :: s[i] == s[k..][i - k] && s[i] in x;
      assert s[|a|] == c;
      assert k > |a|;
      assert s[k..] == u[k - |a| - 1..];
    } else if |x| <= |u| {
      assert s[|s| - |x|..] == u[|u| - |x|..];
    }
  }

  lemma FlagsAcrossCommas(a: string, u: string)
    ensures EndsInFlag(a + "," + u) ==> EndsInFlag(u)
  {
    SuffixAfter(a, ',', u, "true");
    SuffixAfter(a, ',', u, "false");
  }

  lemma {:induction false} JoinIsFlagless(parts: seq<string>)
    requires forall p | p in parts :: Flagless(p)
    ensures Flagless(Join(parts, ","))
  {
    if |parts| > 1 {
      var a, t := parts[0], Join(parts[1..], ",");
      JoinIsFlagless(parts[1..]);
      var s := a + "," + t;
      assert Flagless(a);
      hide EndsInFlag, Join;
      forall i | 0 <= i < |s| && s[i] == '/'
        ensures !EndsInFlag(s[..i])
      {
        if i < |a| {
          assert s[..i] == a[..i];
        } else {
          var j := i - |a| - 1;
          assert s[..i] == a + "," + t[..j] && s[i] == t[j];
          FlagsAcrossCommas(a, t[..j]);
        }
      }
    }
  }

  /** Text made of owner references: none, or ending in a flag behind a slash. */
  predicate OwnerText(s: string) { s == "" || HasSuffix(s, "/true") || HasSuffix(s, "/false") }

  lemma {:induction false} JoinIsOwnerText(parts: seq<string>)
    requires forall p | p in parts :: HasSuffix(p, "/true") || HasSuffix(p, "/false")
    ensures OwnerText(Join(parts, ",")) && (parts != [] ==> Join(parts, ",") != "")
  {
    if |parts| == 1 {
      SuffixIsSome(parts[0]);
    } else if |parts| > 1 {
      SuffixIsSome(parts[0]);
      JoinIsOwnerText(parts[1..]);
      TextAfterComma(parts[0], Join(parts[1..], ","));
    }
  }

  lemma TextAfterComma(a: string, t: string)
    requires OwnerText(t) && t != ""
    ensures OwnerText(a + "," + t)
  {
    SuffixAfter(a, ',', t, "/true");
    SuffixAfter(a, ',', t, "/false");
  }

  lemma OwnersAreOwnerText(refs: seq<OwnerReference>)
    requires forall r | r in refs :: ReadableRef(r)
    ensures OwnerText(OwnerReferenceFingerprint(refs))
  {
    RefsAreWhole(refs);
    hide RefPart, Whole, ReadableRef, HasSuffix, Fit, Flat, Join;
    var parts := Flat(refs, RefPartF());
    SortKeeps(parts, (x: string) => [x]);
    SameElements(parts, SortStrings(parts));
    JoinIsOwnerText(SortStrings(parts));
  }

  lemma ImagesAreFlagless(images: seq<string>)
    requires forall i | i in images :: ReadableImage(i)
    ensures Flagless(StringSliceFingerprint(images))
  {
    hide Flagless, Join;
    SortKeeps(images, (x: string) => [x]);
    SameElements(images, SortStrings(images));
    JoinIsFlagless(SortStrings(images));
  }

  /** Between the two texts there is only one slash that can be the cut. */
  lemma NoLonger(o: string, m: string, p: string, n: string)
    requires OwnerText(p) && Flagless(m) && o + "/" + m == p + "/" + n
    ensures |p| <= |o|
  {
    var left, right := o + "/" + m, p + "/" + n;
    assert left[|o|] == '/' && right[|p|] == '/';
    assert forall i | 0 <= i < |p| :: p[i] == right[i];
    assert forall i | |o| < i < |left| :: left[i] == m[i - |o| - 1];
    assert p != "" ==> (|p| >= 5 && p[|p| - 5..] == "/true") || (|p| >= 6 && p[|p| - 6..] == "/false");
    if |o| < |p| {
      LongerShowsFlag(o, m, p, n);
    }
  }

  lemma LongerShowsFlag(o: string, m: string, p: string, n: string)
    requires OwnerText(p) && o + "/" + m == p + "/" + n && |o| < |p|
    ensures !Flagless(m)
  {
    var left, right := o + "/" + m, p + "/" + n;
    var j := |p| - |o| - 1;
    assert right[|p|] == '/' && left[|o|] == '/';
    assert p == left[..|p|];
    assert |p| < |left| && left[|p|] == m[j];
    assert m[..j] == left[|o| + 1..|p|];
    assert p[|o|] == '/';
    FlagAfterSlash(p, |o|);
    assert p[|o| + 1..] == m[..j];
  }

  /** Behind any slash of such text, if more than a flag follows, it ends in one. */
  lemma FlagAfterSlash(p: string, i: nat)
    requires OwnerText(p) && i < |p| && p[i] == '/'
    ensures EndsInFlag(p[i + 1..])
  {
    if HasSuffix(p, "/true") {
      assert p[|p| - 5..] == "/true";
      assert forall k | |p| - 5 < k < |p| :: p[k] == "/true"[k - (|p| - 5)];
      var t := p[i + 1..];
      assert i <= |p| - 5;
      assert t[|t| - 4..] == p[|p| - 4..] == "true";
    } else {
      assert p[|p| - 6..] == "/false";
      assert forall k | |p| - 6 < k < |p| :: p[k] == "/false"[k - (|p| - 6)];
      var t := p[i + 1..];
      assert i <= |p| - 6;
      assert t[|t| - 5..] == p[|p| - 5..] == "false";
    }
  }

  lemma OwnersThenImages(o: string, m: string, p: string, n: string)
    requires OwnerText(o) && OwnerText(p) && Flagless(m) && Flagless(n) && o + "/" + m == p + "/" + n
    ensures o == p && m == n
  {
    hide OwnerText, Flagless;
    NoLonger(o, m, p, n);
    NoLonger(p, n, o, m);
    var left, right := o + "/" + m, p + "/" + n;
    assert o == left[..|o|] && p == right[..|p|] && m == left[|o| + 1..] && n == right[|p| + 1..];
  }

  function PodFront(p: KubePod): seq<string> {
    [p.meta.namespace, p.meta.name, p.meta.uid, p.nodeName, p.serviceAccount, p.phase, p.reason]
  }

  function PodMiddle(p: KubePod): seq<string> {
    [OwnerReferenceFingerprint(p.ownerReferences), StringSliceFingerprint(p.containerImages)]
  }

  function PodEnd(p: KubePod): seq<string> {
    [StringSliceFingerprint(p.configMapRefs), StringSliceFingerprint(p.secretRefs), StringSliceFingerprint(p.pvcRefs)]
  }

  lemma NamesAreSlashless(names: seq<string>)
    requires forall n | n in names :: ReadableName(n)
    ensures '/' !in StringSliceFingerprint(names) && Fit(StringSliceFingerprint(names))
  {
    SortKeeps(names, (x: string) => [x]);
    SameElements(names, SortStrings(names));
    JoinAvoids(SortStrings(names), ",", '/');
    FitSortedJoin(names, ",");
  }

  lemma PodFields(p: KubePod)
    requires ReadablePod(p)
    ensures PodFingerprint(p) == Join(PodFront(p) + ([StringMapFingerprint(p.meta.labels)] + (PodMiddle(p) + PodEnd(p))), "/")
    ensures Slashless(PodFront(p)) && Slashless(PodEnd(p))
  {
    NamesAreSlashless(p.configMapRefs);
    NamesAreSlashless(p.secretRefs);
    NamesAreSlashless(p.pvcRefs);
    hide StringMapFingerprint, OwnerReferenceFingerprint, StringSliceFingerprint, Join, ReadableRef, ReadableImage, LabelMap, Fit;
    assert PodFront(p) + ([StringMapFingerprint(p.meta.labels)] + (PodMiddle(p) + PodEnd(p))) ==
      [p.meta.namespace, p.meta.name, p.meta.uid, p.nodeName, p.serviceAccount, p.phase, p.reason,
       StringMapFingerprint(p.meta.labels), OwnerReferenceFingerprint(p.ownerReferences), StringSliceFingerprint(p.containerImages),
       StringSliceFingerprint(p.configMapRefs), StringSliceFingerprint(p.secretRefs), StringSliceFingerprint(p.pvcRefs)];
  }

  lemma PodPartsTell(p: KubePod, q: KubePod)
    requires ReadablePod(p) && ReadablePod(q) && PodFingerprint(p) == PodFingerprint(q)
    ensures PodFront(p) == PodFront(q) && p.meta.labels == q.meta.labels && PodEnd(p) == PodEnd(q)
    ensures Join(PodMiddle(p), "/") == Join(PodMiddle(q), "/")
  {
    PodFields(p);
    PodFields(q);
    hide StringMapFingerprint, Join, ReadableRef, ReadableImage, ReadableName, LabelMap, Fit, Slashless, PodFingerprint,
         PodMiddle, PodEnd;
    var l, m := StringMapFingerprint(p.meta.labels), StringMapFingerprint(q.meta.labels);
    var a, b := PodMiddle(p) + PodEnd(p), PodMiddle(q) + PodEnd(q);
    FrontsTell(PodFront(p), [l] + a, PodFront(q), [m] + b);
    assert PodFront(q)[..7] == PodFront(q) && PodFront(q)[7..] + ([m] + b) == [m] + b;
    MiddlesAreSome(p);
    MiddlesAreSome(q);
    JoinOne(l, a);
    JoinOne(m, b);
    MapInFront(p.meta.labels, Join(a, "/"), q.meta.labels, Join(b, "/"));
    RightFields(PodMiddle(p), PodEnd(p), PodMiddle(q), PodEnd(q));
  }

  lemma MiddlesAreSome(p: KubePod)
    ensures |PodMiddle(p)| == 2 && |PodEnd(p)| == 3
  {
  }

  /** A pod's fingerprint tells the pod, up to the order of its lists. */
  lemma PodTold(p: KubePod, q: KubePod)
    requires ReadablePod(p) && ReadablePod(q) && PodFingerprint(p) == PodFingerprint(q)
    ensures SamePod(p, q)
  {
    PodPartsTell(p, q);
    OwnersAreOwnerText(p.ownerReferences);
    OwnersAreOwnerText(q.ownerReferences);
    ImagesAreFlagless(p.containerImages);
    ImagesAreFlagless(q.containerImages);
    hide StringMapFingerprint, OwnerReferenceFingerprint, StringSliceFingerprint, PodFingerprint, LabelMap, Fit, ReadableRef, Flagless, OwnerText;
    var o, m := OwnerReferenceFingerprint(p.ownerReferences), StringSliceFingerprint(p.containerImages);
    var u, n := OwnerReferenceFingerprint(q.ownerReferences), StringSliceFingerprint(q.containerImages);
    assert PodMiddle(p) == [o] + [m] && PodMiddle(q) == [u] + [n];
    JoinOne(o, [m]);
    JoinOne(u, [n]);
    assert Join([m], "/") == m && Join([n], "/") == n;
    hide Join;
    OwnersThenImages(o, m, u, n);
    OwnersTell(p.ownerReferences, q.ownerReferences);
    SliceTells(p.containerImages, q.containerImages);
    var e, f := PodEnd(p), PodEnd(q);
    assert e[0] == f[0] && e[1] == f[1] && e[2] == f[2];
    SliceTells(p.configMapRefs, q.configMapRefs);
    SliceTells(p.secretRefs, q.secretRefs);
    SliceTells(p.pvcRefs, q.pvcRefs);
    PodFrontsTell(p, q);
  }

  lemma PodFrontsTell(p: KubePod, q: KubePod)
    requires PodFront(p) == PodFront(q)
    ensures p.meta.namespace == q.meta.namespace && p.meta.name == q.meta.name && p.meta.uid == q.meta.uid && p.nodeName == q.nodeName
    ensures p.serviceAccount == q.serviceAccount && p.phase == q.phase && p.reason == q.reason
  {
    var a, b := PodFront(p), PodFront(q);
    assert a[0] == b[0] && a[1] == b[1] && a[2] == b[2] && a[3] == b[3] && a[4] == b[4] && a[5] == b[5] && a[6] == b[6];
  }

  // ---- Services and storage ----

  predicate ReadableService(v: KubeService) {
    ReadableMeta(v.meta) && LabelMap(v.meta.labels) && ReadableMap(v.selector)
  }

  /** A service's fingerprint tells the service. */
  lemma ServiceTold(v: KubeService, w: KubeService)
    requires ReadableService(v) && ReadableService(w) && ServiceFingerprint(v) == ServiceFingerprint(w)
    ensures v == w
  {
    hide StringMapFingerprint, LabelMap, ReadableMap, Fit, Join;
    var a, b := [v.meta.namespace, v.meta.name, v.meta.uid], [w.meta.namespace, w.meta.name, w.meta.uid];
    var l, m, x, y := StringMapFingerprint(v.meta.labels), StringMapFingerprint(w.meta.labels),
                      StringMapFingerprint(v.selector), StringMapFingerprint(w.selector);
    assert a + ([l] + [x]) == [v.meta.namespace, v.meta.name, v.meta.uid, l, x];
    assert b + ([m] + [y]) == [w.meta.namespace, w.meta.name, w.meta.uid, m, y];
    FrontsTell(a, [l] + [x], b, [m] + [y]);
    assert b[..3] == b && b[3..] + ([m] + [y]) == [m] + [y];
    assert a[0] == b[0] && a[1] == b[1] && a[2] == b[2];
    JoinOne(l, [x]);
    JoinOne(m, [y]);
    JoinSingle(x);
    JoinSingle(y);
    MapInFront(v.meta.labels, x, w.meta.labels, y);
    MapTextTells(v.selector, w.selector);
  }

  lemma JoinSingle(s: string)
    ensures Join([s], "/") == s
  {
  }

  // Claims, volumes, classes and drivers carry labels, and cluster-wide kinds a namespace, that no fingerprint reads.

  function WatchedPVC(p: KubePVC): KubePVC { p.(meta := p.meta.(labels := map[])) }
  function WatchedPV(p: KubePV): KubePV { p.(meta := p.meta.(namespace := "", labels := map[])) }
  function WatchedClass(x: KubeStorageClass): KubeStorageClass { x.(meta := x.meta.(namespace := "", labels := map[])) }
  function WatchedDriver(d: KubeNamed): KubeNamed { d.(meta := d.meta.(namespace := "", labels := map[])) }

  predicate ReadablePVC(p: KubePVC) { ReadableMeta(p.meta) && Clean(p.volumeName) && Clean(p.storageClassName) && Clean(p.status) }

  predicate ReadablePV(p: KubePV) {
    Clean(p.meta.name) && Clean(p.meta.uid) && Clean(p.storageClassName) && Clean(p.status) && ReadableMap(p.csi)
  }

  predicate ReadableClass(x: KubeStorageClass) {
    Clean(x.meta.name) && Clean(x.meta.uid) && Fit(x.provisioner) && Clean(x.reclaimPolicy) && Clean(x.volumeBindingMode)
  }

  predicate ReadableDriver(d: KubeNamed) { Clean(d.meta.name) && Clean(d.meta.uid) }

  lemma PVCTold(p: KubePVC, q: KubePVC)
    requires ReadablePVC(p) && ReadablePVC(q) && PVCFingerprint(p) == PVCFingerprint(q)
    ensures WatchedPVC(p) == WatchedPVC(q)
  {
    hide Fit, Join;
    var a := ["pvc", p.meta.namespace, p.meta.name, p.meta.uid, p.volumeName, p.storageClassName, p.status];
    var b := ["pvc", q.meta.namespace, q.meta.name, q.meta.uid, q.volumeName, q.storageClassName, q.status];
    JoinIsInjective(a, b, '/');
    assert a[1] == b[1] && a[2] == b[2] && a[3] == b[3] && a[4] == b[4] && a[5] == b[5] && a[6] == b[6];
  }

  lemma PVTold(p: KubePV, q: KubePV)
    requires ReadablePV(p) && ReadablePV(q) && PVFingerprint(p) == PVFingerprint(q)
    ensures WatchedPV(p) == WatchedPV(q)
  {
    hide StringMapFingerprint, ReadableMap, Fit, Join;
    var a, b := ["pv", p.meta.name, p.meta.uid, p.storageClassName, p.status], ["pv", q.meta.name, q.meta.uid, q.storageClassName, q.status];
    var x, y := StringMapFingerprint(p.csi), StringMapFingerprint(q.csi);
    assert a + [x] == ["pv", p.meta.name, p.meta.uid, p.storageClassName, p.status, x];
    assert b + [y] == ["pv", q.meta.name, q.meta.uid, q.storageClassName, q.status, y];
    FrontsTell(a, [x], b, [y]);
    assert b[..5] == b && b[5..] + [y] == [y];
    assert a[1] == b[1] && a[2] == b[2] && a[3] == b[3] && a[4] == b[4];
    JoinSingle(x);
    JoinSingle(y);
    MapTextTells(p.csi, q.csi);
  }

  lemma ClassTold(x: KubeStorageClass, y: KubeStorageClass)
    requires ReadableClass(x) && ReadableClass(y) && StorageClassFingerprint(x) == StorageClassFingerprint(y)
    ensures WatchedClass(x) == WatchedClass(y)
  {
    hide Fit, Join;
    var a, b := ["storageclass", x.meta.name, x.meta.uid], ["storageclass", y.meta.name, y.meta.uid];
    var e, f := [x.reclaimPolicy, x.volumeBindingMode], [y.reclaimPolicy, y.volumeBindingMode];
    assert a + ([x.provisioner] + e) == ["storageclass", x.meta.name, x.meta.uid, x.provisioner, x.reclaimPolicy, x.volumeBindingMode];
    assert b + ([y.provisioner] + f) == ["storageclass", y.meta.name, y.meta.uid, y.provisioner, y.reclaimPolicy, y.volumeBindingMode];
    FrontsTell(a, [x.provisioner] + e, b, [y.provisioner] + f);
    assert b[..3] == b && b[3..] + ([y.provisioner] + f) == [y.provisioner] + f;
    RightFields([x.provisioner], e, [y.provisioner], f);
    JoinSingle(x.provisioner);
    JoinSingle(y.provisioner);
    assert a[1] == b[1] && a[2] == b[2] && e[0] == f[0] && e[1] == f[1];
  }

  lemma DriverTold(d: KubeNamed, e: KubeNamed)
    requires ReadableDriver(d) && ReadableDriver(e) && CSIDriverFingerprint(d) == CSIDriverFingerprint(e)
    ensures WatchedDriver(d) == WatchedDriver(e)
  {
    hide Fit, Join;
    var a, b := ["csidriver", d.meta.name, d.meta.uid], ["csidriver", e.meta.name, e.meta.uid];
    JoinIsInjective(a, b, '/');
    assert a[1] == b[1] && a[2] == b[2];
  }

  // ---- Events ----

  function WatchedEvent(e: KubeEvent): KubeEvent { e.(meta := e.meta.(labels := map[]), involvedUID := "") }

  predicate ReadableEvent(e: KubeEvent) {
    ReadableMeta(e.meta) && Clean(e.involvedKind) && Clean(e.involvedName) && Clean(e.reason) && Fit(e.message)
  }

  lemma EventTold(e: KubeEvent, f: KubeEvent)
    requires ReadableEvent(e) && ReadableEvent(f) && EventFingerprint(e) == EventFingerprint(f)
    ensures WatchedEvent(e) == WatchedEvent(f)
  {
    hide Fit, Join;
    var a := [e.meta.namespace, e.meta.name, e.meta.uid, e.involvedKind, e.involvedName, e.reason];
    var b := [f.meta.namespace, f.meta.name, f.meta.uid, f.involvedKind, f.involvedName, f.reason];
    assert a + [e.message] == [e.meta.namespace, e.meta.name, e.meta.uid, e.involvedKind, e.involvedName, e.reason, e.message];
    assert b + [f.message] == [f.meta.namespace, f.meta.name, f.meta.uid, f.involvedKind, f.involvedName, f.reason, f.message];
    FrontsTell(a, [e.message], b, [f.message]);
    assert b[..6] == b && b[6..] + [f.message] == [f.message];
    JoinSingle(e.message);
    JoinSingle(f.message);
    assert a[0] == b[0] && a[1] == b[1] && a[2] == b[2] && a[3] == b[3] && a[4] == b[4] && a[5] == b[5];
  }

  // ---- Identities ----

  function WatchedAccount(a: KubeNamed): KubeNamed { a.(meta := a.meta.(labels := map[])) }
  function WatchedRoleBinding(b: KubeBinding): KubeBinding { b.(meta := b.meta.(labels := map[])) }
  function WatchedClusterRoleBinding(b: KubeBinding): KubeBinding { b.(meta := b.meta.(namespace := "", labels := map[])) }

  predicate ReadableSubject(t: Subject) {
    Clean(t.kind) && Fit(t.name) && Clean(t.namespace) && ',' !in t.kind && ',' !in t.name && ',' !in t.namespace
  }

  ghost predicate ReadableBinding(b: KubeBinding) {
    Clean(b.meta.name) && Clean(b.meta.uid) && Clean(b.roleRef) && forall t | t in Subjects(b) :: ReadableSubject(t)
  }

  lemma AccountTold(a: KubeNamed, b: KubeNamed)
    requires ReadableMeta(a.meta) && ReadableMeta(b.meta) && ServiceAccountFingerprint(a) == ServiceAccountFingerprint(b)
    ensures WatchedAccount(a) == WatchedAccount(b)
  {
    hide Fit, Join;
    var x, y := ["sa", a.meta.namespace, a.meta.name, a.meta.uid], ["sa", b.meta.namespace, b.meta.name, b.meta.uid];
    JoinIsInjective(x, y, '/');
    assert x[1] == y[1] && x[2] == y[2] && x[3] == y[3];
  }

  function SubjectPart(t: Subject): string { Join([t.kind, t.name, t.namespace], "/") }

  lemma SubjectPartTells(t: Subject, u: Subject)
    requires ReadableSubject(t) && ReadableSubject(u) && SubjectPart(t) == SubjectPart(u)
    ensures t == u
  {
    hide Fit, Join;
    assert [t.kind] + ([t.name] + [t.namespace]) == [t.kind, t.name, t.namespace];
    assert [u.kind] + ([u.name] + [u.namespace]) == [u.kind, u.name, u.namespace];
    FrontsTell([t.kind], [t.name] + [t.namespace], [u.kind], [u.name] + [u.namespace]);
    assert [u.kind][..1] == [u.kind] && [u.kind][1..] + ([u.name] + [u.namespace]) == [u.name] + [u.namespace];
    RightFields([t.name], [t.namespace], [u.name], [u.namespace]);
    JoinSingle(t.name);
    JoinSingle(u.name);
    assert [t.kind][0] == [u.kind][0] && [t.namespace][0] == [u.namespace][0];
  }

  lemma SubjectPartIsWhole(t: Subject)
    requires ReadableSubject(t)
    ensures Whole(SubjectPart(t), ',') && Fit(SubjectPart(t))
  {
    var parts := [t.kind, t.name, t.namespace];
    JoinAvoids(parts, "/", ',');
    FitJoin(parts, "/");
    assert parts == [t.kind] + [t.name, t.namespace];
    JoinOne(t.kind, [t.name, t.namespace]);
  }

  lemma SubjectsAreWhole(ts: seq<Subject>)
    requires forall t | t in ts :: ReadableSubject(t)
    ensures forall p | p in Flat(ts, SubjectPartF()) :: Whole(p, ',') && Fit(p)
  {
    FlatMembers(ts, SubjectPartF());
    forall t | t in ts
      ensures SubjectPartF()(t) == [SubjectPart(t)] && Whole(SubjectPart(t), ',') && Fit(SubjectPart(t))
    {
      SubjectPartIsWhole(t);
    }
    hide SubjectPartF, Whole, Fit;
  }

  lemma SubjectsTell(b: KubeBinding, d: KubeBinding)
    requires (forall t | t in Subjects(b) :: ReadableSubject(t)) && forall t | t in Subjects(d) :: ReadableSubject(t)
    requires SubjectFingerprint(b) == SubjectFingerprint(d)
    ensures multiset(Subjects(b)) == multiset(Subjects(d))
  {
    SubjectsAreWhole(Subjects(b));
    SubjectsAreWhole(Subjects(d));
    hide Whole, ReadableSubject, SortedJoin, Fit, Flat, Subjects, Join;
    SortedJoinTells(Flat(Subjects(b), SubjectPartF()), Flat(Subjects(d), SubjectPartF()), ',');
    forall t, u | t in Subjects(b) && u in Subjects(d) && SubjectPartF()(t) == SubjectPartF()(u)
      ensures t == u
    {
      assert SubjectPart(t) == [SubjectPart(t)][0] && SubjectPart(u) == [SubjectPart(u)][0];
      SubjectPartTells(t, u);
    }
    ToldByContributions(Subjects(b), Subjects(d), SubjectPartF(), (t: Subject, u: Subject) => t == u);
    EqualElements(Subjects(b), Subjects(d));
  }

  lemma RoleBindingTold(b: KubeBinding, d: KubeBinding)
    requires ReadableBinding(b) && ReadableBinding(d) && Clean(b.meta.namespace) && Clean(d.meta.namespace)
    requires RoleBindingFingerprint(b) == RoleBindingFingerprint(d)
    ensures SameBinding(WatchedRoleBinding(b), WatchedRoleBinding(d))
  {
    hide SubjectFingerprint, ReadableSubject, Fit, Join;
    var x, y := ["rb", b.meta.namespace, b.meta.name, b.meta.uid, b.roleRef], ["rb", d.meta.namespace, d.meta.name, d.meta.uid, d.roleRef];
    var t, u := SubjectFingerprint(b), SubjectFingerprint(d);
    assert x + [t] == ["rb", b.meta.namespace, b.meta.name, b.meta.uid, b.roleRef, t];
    assert y + [u] == ["rb", d.meta.namespace, d.meta.name, d.meta.uid, d.roleRef, u];
    FrontsTell(x, [t], y, [u]);
    assert y[..5] == y && y[5..] + [u] == [u];
    JoinSingle(t);
    JoinSingle(u);
    assert x[1] == y[1] && x[2] == y[2] && x[3] == y[3] && x[4] == y[4];
    SubjectsTell(b, d);
  }

  lemma ClusterRoleBindingTold(b: KubeBinding, d: KubeBinding)
    requires ReadableBinding(b) && ReadableBinding(d) && ClusterRoleBindingFingerprint(b) == ClusterRoleBindingFingerprint(d)
    ensures SameBinding(WatchedClusterRoleBinding(b), WatchedClusterRoleBinding(d))
  {
    hide SubjectFingerprint, ReadableSubject, Fit, Join;
    var x, y := ["crb", b.meta.name, b.meta.uid, b.roleRef], ["crb", d.meta.name, d.meta.uid, d.roleRef];
    var t, u := SubjectFingerprint(b), SubjectFingerprint(d);
    assert x + [t] == ["crb", b.meta.name, b.meta.uid, b.roleRef, t];
    assert y + [u] == ["crb", d.meta.name, d.meta.uid, d.roleRef, u];
    FrontsTell(x, [t], y, [u]);
    assert y[..4] == y && y[4..] + [u] == [u];
    JoinSingle(t);
    JoinSingle(u);
    assert x[1] == y[1] && x[2] == y[2] && x[3] == y[3];
    SubjectsTell(b, d);
  }
}
