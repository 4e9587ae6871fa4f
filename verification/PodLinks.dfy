/** The links of pods in a rebuild, and around a pod after an update, say what the snapshot says. */
module PodLinks {
  import opened Identity
  import opened GraphModel
  import opened Resources
  import opened Csi
  import opened Builder
  import opened RebuildSections
  import opened SnapshotLinks
  import opened LinkPasses
  import opened Changes
  import SR = StorageRefinement
  import Pods = PodReconciler
  import PR = PodRefinement

  // ---- Names ----

  lemma NsNameTells(ns1: string, n1: string, ns2: string, n2: string)
    requires '/' !in ns1 && '/' !in n1
    ensures NsName(ns1, n1) == NsName(ns2, n2) <==> ns1 == ns2 && n1 == n2
  {
    var a, b := NsName(ns1, n1), NsName(ns2, n2);
    if a == b {
      assert a[|ns2|] == b[|ns2|] == '/';
      assert forall i | 0 <= i < |a| && a[i] == '/' :: i == |ns1|;
      assert ns1 == a[..|ns1|] && ns2 == b[..|ns2|] && n1 == a[|ns1| + 1..] && n2 == b[|ns2| + 1..];
    }
  }

  /** A name map of namespaced objects holds the identifier of the object of the namespace and name. */
  lemma NamespacedHas<T(!new)>(xs: seq<T>, key: T -> string, meta: T -> Metadata, id: T -> CanonicalID, namespace: string, name: string, t: CanonicalID)
    requires Namespaced(xs, meta, id) && forall x | x in xs :: key(x) == MetaKey(meta(x))
    ensures NsName(namespace, name) in Index(xs, key, id) && Index(xs, key, id)[NsName(namespace, name)] == t <==>
      exists x | x in xs :: meta(x).namespace == namespace && meta(x).name == name && id(x) == t
  {
    hide Index, NsName;
    var k := NsName(namespace, name);
    forall x | x in xs
      ensures key(x) == k <==> meta(x).namespace == namespace && meta(x).name == name
    {
      NsNameTells(meta(x).namespace, meta(x).name, namespace, name);
    }
    IndexHas(xs, key, id, k, t);
  }

  lemma PodsAreUnique(c: Text, s: Snapshot)
    requires PodNamesIdentify(c, s)
    ensures SR.UniquePods(c, s.pods)
  {
    hide PodID, NsName;
    forall p, q | p in s.pods && q in s.pods && MetaKey(p.meta) == MetaKey(q.meta)
      ensures PodID(c, p) == PodID(c, q)
    {
      assert PodMeta()(p) == p.meta && PodMeta()(q) == q.meta;
      NsNameTells(p.meta.namespace, p.meta.name, q.meta.namespace, q.meta.name);
      assert PodIDF(c)(p) == PodIDF(c)(q);
    }
  }

  // ---- The pass over the pods ----

  lemma PodPassHas(c: Text, s: Snapshot, k: EdgeKey)
    requires SR.UniquePods(c, s.pods)
    ensures HasEdge(Flat(s.pods, PodEdgesF(c, s)), k) <==>
      exists pod | pod in s.pods :: HasEdge(PodEdges(PodMapsOf(c, s), PodID(c, pod), pod), k)
  {
    FlatHas(s.pods, PodEdgesF(c, s), k);
    hide PodEdges, PodMapsOf, PodID, Flat, HasEdge, SR.UniquePods, PodIDs;
    forall pod | pod in s.pods
      ensures PodEdgesF(c, s)(pod) == PodEdges(PodMapsOf(c, s), PodID(c, pod), pod)
    {
      SR.UniquePodsAreListed(c, s.pods, pod);
    }
  }

  lemma ScheduledSays(c: Text, s: Snapshot, pod: KubePod, k: EdgeKey)
    requires ClusterWide(s.nodes, NodeMeta(), NodeIDF(c)) && k.kind == ScheduledOn
    ensures HasEdge(PodEdges(PodMapsOf(c, s), PodID(c, pod), pod), k) <==>
      k.from == PodID(c, pod) && pod.nodeName != "" && exists node | node in s.nodes :: node.meta.name == pod.nodeName && NodeID(c, node) == k.to
  {
    hide PodEdges, PodID, NodeID, Index, HasEdge;
    PodEdgesHave(PodMapsOf(c, s), PodID(c, pod), pod, k);
    ScheduledHas(PodID(c, pod), pod, NodeIDs(c, s.nodes), k);
    forall x, y | x in s.nodes && y in s.nodes && NodeKeyF()(x) == pod.nodeName && NodeKeyF()(y) == pod.nodeName
      ensures NodeIDF(c)(x) == NodeIDF(c)(y)
    {
      assert NodeMeta()(x).name == NodeMeta()(y).name;
    }
    IndexHas(s.nodes, NodeKeyF(), NodeIDF(c), pod.nodeName, k.to);
    assert forall x: KubeNode :: NodeKeyF()(x) == x.meta.name && NodeIDF(c)(x) == NodeID(c, x);
  }

  /** What one list of references contributes. */
  lemma RefsSay<T(!new)>(from: CanonicalID, kind: EdgeKind, namespace: Text, refs: seq<Text>, xs: seq<T>, key: T -> string, meta: T -> Metadata,
                         id: T -> CanonicalID, k: EdgeKey)
    requires Namespaced(xs, meta, id) && forall x | x in xs :: key(x) == MetaKey(meta(x))
    ensures HasEdge(RefEdges(from, kind, namespace, refs, Index(xs, key, id)), k) <==>
      k.from == from && k.kind == kind && exists x | x in xs :: meta(x).namespace == namespace && meta(x).name in refs && id(x) == k.to
  {
    hide HasEdge, RefEdges, Index, NsName, Namespaced;
    RefsHave(from, kind, namespace, refs, Index(xs, key, id), k);
    forall ref { NamespacedHas(xs, key, meta, id, namespace, ref, k.to); }
    var m := Index(xs, key, id);
    assert (exists ref | ref in refs :: NsName(namespace, ref) in m && m[NsName(namespace, ref)] == k.to)
      <==> exists x | x in xs :: meta(x).namespace == namespace && meta(x).name in refs && id(x) == k.to;
  }

  lemma ConfigMapsSay(c: Text, s: Snapshot, pod: KubePod, k: EdgeKey)
    requires Namespaced(s.configMaps, NamedMeta(), ConfigMapIDF(c)) && k.kind == UsesConfigMap
    ensures HasEdge(PodEdges(PodMapsOf(c, s), PodID(c, pod), pod), k) <==>
      k.from == PodID(c, pod) && exists cm | cm in s.configMaps :: RefersTo(pod, pod.configMapRefs, cm.meta) && ConfigMapID(c, cm) == k.to
  {
    hide PodEdges, PodID, ConfigMapID, Index, HasEdge, Namespaced, NsName;
    PodEdgesHave(PodMapsOf(c, s), PodID(c, pod), pod, k);
    RefsSay(PodID(c, pod), UsesConfigMap, pod.meta.namespace, pod.configMapRefs, s.configMaps, NamedKeyF(), NamedMeta(), ConfigMapIDF(c), k);
    assert forall x: KubeNamed :: NamedMeta()(x) == x.meta && ConfigMapIDF(c)(x) == ConfigMapID(c, x);
  }

  lemma SecretsSay(c: Text, s: Snapshot, pod: KubePod, k: EdgeKey)
    requires Namespaced(s.secrets, NamedMeta(), SecretIDF(c)) && k.kind == UsesSecret
    ensures HasEdge(PodEdges(PodMapsOf(c, s), PodID(c, pod), pod), k) <==>
      k.from == PodID(c, pod) && exists secret | secret in s.secrets :: RefersTo(pod, pod.secretRefs, secret.meta) && SecretID(c, secret) == k.to
  {
    hide PodEdges, PodID, SecretID, Index, HasEdge, Namespaced, NsName;
    PodEdgesHave(PodMapsOf(c, s), PodID(c, pod), pod, k);
    RefsSay(PodID(c, pod), UsesSecret, pod.meta.namespace, pod.secretRefs, s.secrets, NamedKeyF(), NamedMeta(), SecretIDF(c), k);
    assert forall x: KubeNamed :: NamedMeta()(x) == x.meta && SecretIDF(c)(x) == SecretID(c, x);
  }

  lemma ClaimsSay(c: Text, s: Snapshot, pod: KubePod, k: EdgeKey)
    requires Namespaced(s.pvcs, PVCMeta(), PVCIDF(c)) && k.kind == MountsPVC
    ensures HasEdge(PodEdges(PodMapsOf(c, s), PodID(c, pod), pod), k) <==>
      k.from == PodID(c, pod) && exists claim | claim in s.pvcs :: RefersTo(pod, pod.pvcRefs, claim.meta) && PVCID(c, claim) == k.to
  {
    hide PodEdges, PodID, PVCID, Index, HasEdge, Namespaced, NsName;
    PodEdgesHave(PodMapsOf(c, s), PodID(c, pod), pod, k);
    RefsSay(PodID(c, pod), MountsPVC, pod.meta.namespace, pod.pvcRefs, s.pvcs, PVCKeyF(), PVCMeta(), PVCIDF(c), k);
    assert forall x: KubePVC :: PVCMeta()(x) == x.meta && PVCIDF(c)(x) == PVCID(c, x);
  }

  lemma AccountsSay(c: Text, s: Snapshot, pod: KubePod, k: EdgeKey)
    requires Namespaced(s.serviceAccounts, NamedMeta(), ServiceAccountIDF(c)) && k.kind == UsesServiceAccount
    ensures HasEdge(PodEdges(PodMapsOf(c, s), PodID(c, pod), pod), k) <==>
      k.from == PodID(c, pod) && exists account | account in s.serviceAccounts ::
        account.meta.namespace == pod.meta.namespace && account.meta.name == pod.serviceAccount != "" && ServiceAccountID(c, account) == k.to
  {
    hide PodEdges, PodID, ServiceAccountID, Index, HasEdge, Namespaced, NsName;
    PodEdgesHave(PodMapsOf(c, s), PodID(c, pod), pod, k);
    AccountHas(PodID(c, pod), pod, ServiceAccountIDs(c, s.serviceAccounts), k);
    NamespacedHas(s.serviceAccounts, NamedKeyF(), NamedMeta(), ServiceAccountIDF(c), pod.meta.namespace, pod.serviceAccount, k.to);
    assert forall x: KubeNamed :: NamedMeta()(x) == x.meta && ServiceAccountIDF(c)(x) == ServiceAccountID(c, x);
  }

  /** The links a pod update writes, but for owners. */
  ghost predicate PodSays(c: Text, s: Snapshot, k: EdgeKey)
    requires k.kind in POD_LINKS
  {
    match k.kind
    case ScheduledOn => RunsOn(c, s, k.from, k.to)
    case UsesConfigMap => ReadsConfigMap(c, s, k.from, k.to)
    case UsesSecret => ReadsSecret(c, s, k.from, k.to)
    case MountsPVC => Mounts(c, s, k.from, k.to)
    case UsesServiceAccount => RunsAs(c, s, k.from, k.to)
    case UsesImage => RunsImage(c, s, k.from, k.to)
    case SelectsPod => Selected(c, s, k.from, k.to)
  }

  const POD_LINKS: set<EdgeKind> := {ScheduledOn, UsesConfigMap, UsesSecret, MountsPVC, UsesServiceAccount, UsesImage, SelectsPod}

  lemma PodPassSays(c: Text, s: Snapshot, k: EdgeKey)
    requires PodNamesIdentify(c, s) && k.kind in {ScheduledOn, UsesConfigMap, UsesSecret, MountsPVC, UsesServiceAccount}
    ensures HasEdge(Flat(s.pods, PodEdgesF(c, s)), k) <==> PodSays(c, s, k)
  {
    hide Flat, HasEdge, PodEdges, PodMapsOf, PodEdgesF, PodID, NodeID, ConfigMapID, SecretID, PVCID, ServiceAccountID, RefersTo, Namespaced, ClusterWide;
    PodsAreUnique(c, s);
    PodPassHas(c, s, k);
    forall pod | pod in s.pods
      ensures k.kind == ScheduledOn ==> (HasEdge(PodEdges(PodMapsOf(c, s), PodID(c, pod), pod), k) <==>
        k.from == PodID(c, pod) && pod.nodeName != "" && exists node | node in s.nodes :: node.meta.name == pod.nodeName && NodeID(c, node) == k.to)
      ensures k.kind == UsesConfigMap ==> (HasEdge(PodEdges(PodMapsOf(c, s), PodID(c, pod), pod), k) <==>
        k.from == PodID(c, pod) && exists cm | cm in s.configMaps :: RefersTo(pod, pod.configMapRefs, cm.meta) && ConfigMapID(c, cm) == k.to)
      ensures k.kind == UsesSecret ==> (HasEdge(PodEdges(PodMapsOf(c, s), PodID(c, pod), pod), k) <==>
        k.from == PodID(c, pod) && exists secret | secret in s.secrets :: RefersTo(pod, pod.secretRefs, secret.meta) && SecretID(c, secret) == k.to)
      ensures k.kind == MountsPVC ==> (HasEdge(PodEdges(PodMapsOf(c, s), PodID(c, pod), pod), k) <==>
        k.from == PodID(c, pod) && exists claim | claim in s.pvcs :: RefersTo(pod, pod.pvcRefs, claim.meta) && PVCID(c, claim) == k.to)
      ensures k.kind == UsesServiceAccount ==> (HasEdge(PodEdges(PodMapsOf(c, s), PodID(c, pod), pod), k) <==>
        k.from == PodID(c, pod) && exists account | account in s.serviceAccounts ::
          account.meta.namespace == pod.meta.namespace && account.meta.name == pod.serviceAccount != "" && ServiceAccountID(c, account) == k.to)
    {
      match k.kind
      case ScheduledOn => ScheduledSays(c, s, pod, k);
      case UsesConfigMap => ConfigMapsSay(c, s, pod, k);
      case UsesSecret => SecretsSay(c, s, pod, k);
      case MountsPVC => ClaimsSay(c, s, pod, k);
      case UsesServiceAccount => AccountsSay(c, s, pod, k);
    }
  }

  // ---- Images ----

  lemma ImagePassSays(c: Text, s: Snapshot, k: EdgeKey)
    requires k.kind == UsesImage
    ensures HasEdge(Flat(s.pods, ImageEdgesF(c)), k) <==> RunsImage(c, s, k.from, k.to)
  {
    hide Flat, HasEdge, ImageEdges, PodID, ImageID;
    FlatHas(s.pods, ImageEdgesF(c), k);
    forall pod | pod in s.pods { ImagesHave(c, PodID(c, pod), pod.containerImages, k); }
  }

  // ---- Selections ----

  lemma MatchingIsAsking(v: KubeService, pod: KubePod)
    ensures pod.meta.namespace == v.meta.namespace && LabelsMatch(v.selector, pod.meta.labels) <==> AsksFor(v, pod)
  {
  }

  lemma ServiceIsListed(c: Text, s: Snapshot, v: KubeService)
    requires PodNamesIdentify(c, s) && v in s.services
    ensures MetaKey(v.meta) in ServiceIDs(c, s.services) && ServiceIDs(c, s.services)[MetaKey(v.meta)] == ServiceID(c, v)
  {
    hide Index, ServiceID, NsName;
    forall w | w in s.services && ServiceKeyF()(w) == ServiceKeyF()(v)
      ensures ServiceIDF(c)(w) == ServiceIDF(c)(v)
    {
      assert ServiceMeta()(w) == w.meta && ServiceMeta()(v) == v.meta;
      NsNameTells(w.meta.namespace, w.meta.name, v.meta.namespace, v.meta.name);
    }
    IndexIsExact(s.services, ServiceKeyF(), ServiceIDF(c), v);
  }

  lemma SelectionSays(c: Text, s: Snapshot, v: KubeService, k: EdgeKey)
    requires PodNamesIdentify(c, s) && v in s.services && k.kind == SelectsPod
    ensures HasEdge(ServiceEdgesF(c, s)(v), k) <==>
      ServiceID(c, v) == k.from && exists pod | pod in s.pods :: PodID(c, pod) == k.to && AsksFor(v, pod)
  {
    ServiceIsListed(c, s, v);
    PodsAreUnique(c, s);
    hide Flat, HasEdge, ServiceID, PodID, LabelsMatch, Index, SR.UniquePods, PodNamesIdentify, AsksFor, NsName, PodIDs, ServiceIDs;
    var f := SelectEdges(ServiceID(c, v), v, PodIDs(c, s.pods));
    FlatHas(s.pods, f, k);
    forall pod | pod in s.pods
      ensures HasEdge(f(pod), k) <==> ServiceID(c, v) == k.from && PodID(c, pod) == k.to && AsksFor(v, pod)
    {
      SR.UniquePodsAreListed(c, s.pods, pod);
      MatchingIsAsking(v, pod);
      OneHas(NewEdge(ServiceID(c, v), PodID(c, pod), SelectsPod), k);
    }
  }

  lemma ServicePassSays(c: Text, s: Snapshot, k: EdgeKey)
    requires PodNamesIdentify(c, s) && k.kind == SelectsPod
    ensures HasEdge(Flat(s.services, ServiceEdgesF(c, s)), k) <==> Selected(c, s, k.from, k.to)
  {
    hide Flat, HasEdge, ServiceEdgesF, ServiceID, PodID, AsksFor, PodNamesIdentify;
    FlatHas(s.services, ServiceEdgesF(c, s), k);
    forall v | v in s.services { SelectionSays(c, s, v, k); }
  }

  // ---- The theorems ----

  /** A rebuild stores exactly the links of pods that the snapshot speaks of. */
  lemma RebuildShowsPodLinks(c: Text, rules: seq<CSIRule>, x: Inferred, s: Snapshot, order: seq<string>, evidence: seq<Edge>, k: EdgeKey)
    requires InferredShape(x) && EdgesIn(evidence, {AffectedByWebhook}) && PodNamesIdentify(c, s) && k.kind in POD_LINKS
    ensures k in Rebuilt(c, rules, x, s, order, evidence).edges <==> PodSays(c, s, k)
  {
    hide Rebuilt, Flat, HasEdge, PodEdgesF, ImageEdgesF, ServiceEdgesF, StorageEdges, RunsOn, ReadsConfigMap, ReadsSecret, Mounts, RunsAs,
         RunsImage, Selected, PodNamesIdentify;
    RebuiltHas(c, rules, x, s, order, evidence, k);
    if k.kind == UsesImage {
      ImagePassSays(c, s, k);
    } else if k.kind == SelectsPod {
      ServicePassSays(c, s, k);
    } else {
      PodPassSays(c, s, k);
    }
  }

  /** From any prior graph, an update of a pod leaves exactly the links of that pod that the snapshot speaks of. */
  lemma UpdateShowsPodLinks(g: Graph, c: Text, s: Snapshot, namespace: Text, name: Text, change: ChangeType, k: EdgeKey)
    requires PodNamesIdentify(c, s) && PR.DistinctPods(c, s.pods) && PR.Updates(s, namespace, name, change) && k.kind in POD_LINKS
    requires (if k.kind == SelectsPod then k.to else k.from) == PodID(c, Pods.FindPod(s.pods, namespace, name).pod)
    ensures k in Pods.Reconciled(g, c, s, namespace, name, change).edges <==> PodSays(c, s, k)
  {
    hide Pods.Reconciled, Rebuilt, PodSays, PR.DistinctPods, PR.UniqueServices, PodNamesIdentify, PodID, Pods.FindPod, PR.Updates;
    ServicesAreUnique(c, s);
    LinksAreScoped(k);
    PodUpdateAgrees(g, c, s, namespace, name, change, k);
    RebuildShowsPodLinks(c, [], Inferred([], [], []), s, [], [], k);
  }

  /** Within the scope of the pod an update agrees with a rebuild, edge by edge. */
  lemma PodUpdateAgrees(g: Graph, c: Text, s: Snapshot, namespace: Text, name: Text, change: ChangeType, k: EdgeKey)
    requires PR.DistinctPods(c, s.pods) && PR.UniqueServices(c, s.services) && PR.Updates(s, namespace, name, change)
    requires Pods.IsPodScopedEdge(k, PodID(c, Pods.FindPod(s.pods, namespace, name).pod))
    ensures k in Pods.Reconciled(g, c, s, namespace, name, change).edges <==> k in Rebuilt(c, [], Inferred([], [], []), s, [], []).edges
  {
    hide Pods.Reconciled, Rebuilt, PR.DistinctPods, PR.UniqueServices, PodID, Pods.FindPod, Pods.IsPodScopedEdge, Only;
    var x, id := Inferred([], [], []), PodID(c, Pods.FindPod(s.pods, namespace, name).pod);
    PR.PodUpdateMatchesRebuild(g, c, [], x, s, [], [], namespace, name, change);
    OnlyAgrees(Pods.Reconciled(g, c, s, namespace, name, change).edges, Rebuilt(c, [], x, s, [], []).edges, Pods.PodScope(id), k);
  }

  lemma LinksAreScoped(k: EdgeKey)
    requires k.kind in POD_LINKS
    ensures Pods.IsPodScopedEdge(k, if k.kind == SelectsPod then k.to else k.from)
  {
  }

  lemma ServicesAreUnique(c: Text, s: Snapshot)
    requires PodNamesIdentify(c, s)
    ensures PR.UniqueServices(c, s.services)
  {
    hide ServiceID, PodNamesIdentify;
    forall v, w | v in s.services && w in s.services && MetaKey(v.meta) == MetaKey(w.meta)
      ensures ServiceID(c, v) == ServiceID(c, w)
    {
      ServiceIsListed(c, s, v);
      ServiceIsListed(c, s, w);
    }
  }
}
