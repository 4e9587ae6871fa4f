/** A pod update leaves exactly what a full rebuild gives that pod, from any prior state. */
module PodRefinement {
  import opened Identity
  import opened Strings
  import opened GraphModel
  import opened Resources
  import opened Csi
  import opened Builder
  import opened RebuildSections
  import opened Changes
  import opened PodReconciler
  import SR = StorageRefinement

  /** Kubernetes lists a pod once: neither its name nor its identifier is shared. */
  ghost predicate DistinctPods(c: Text, pods: seq<KubePod>) {
    forall p, q | p in pods && q in pods && (MetaKey(p.meta) == MetaKey(q.meta) || PodID(c, p) == PodID(c, q)) :: p == q
  }

  ghost predicate UniqueServices(c: Text, services: seq<KubeService>) {
    forall v, w | v in services && w in services && MetaKey(v.meta) == MetaKey(w.meta) :: ServiceID(c, v) == ServiceID(c, w)
  }

  /** Pods listed once under their name have distinct identifiers as soon as their fields are free of '/'. */
  lemma PlainPodsAreDistinct(c: Text, pods: seq<KubePod>)
    requires forall p | p in pods :: Plain(p.meta.namespace) && Plain(p.meta.name)
    requires forall p, q | p in pods && q in pods && p.meta.namespace == q.meta.namespace && p.meta.name == q.meta.name :: p == q
    ensures DistinctPods(c, pods)
  {
    forall p, q | p in pods && q in pods && (MetaKey(p.meta) == MetaKey(q.meta) || PodID(c, p) == PodID(c, q))
      ensures p == q
    {
      if MetaKey(p.meta) == MetaKey(q.meta) {
        CutIsUnique(p.meta.namespace, q.meta.namespace, p.meta.name, q.meta.name, '/');
      } else {
        ResourceIDDetermines(c, "core", Pod, p.meta.namespace, p.meta.name, p.meta.uid, q.meta.namespace, q.meta.name, q.meta.uid);
        PlainFieldSurvives(p.meta.namespace, q.meta.namespace);
        PlainFieldSurvives(p.meta.name, q.meta.name);
      }
    }
  }

  // ---- The update's side ----

  ghost predicate AllScoped(es: seq<Edge>, podID: CanonicalID) {
    forall e | e in es :: IsPodScopedEdge(e.Triple(), podID)
  }

  lemma SelectionsAreScoped(c: Text, services: seq<KubeService>, p: KubePod)
    ensures AllScoped(Flat(services, SelectorF(c, p)), PodID(c, p))
  {
    hide PodID, ServiceID, LabelsMatch;
    FlatMembers(services, SelectorF(c, p));
  }

  lemma PodEdgesAreScoped(m: PodMaps, id: CanonicalID, p: KubePod)
    ensures AllScoped(PodEdges(m, id, p), id)
  {
    hide PodTargets, RefEdges, OwnerEdges, NsName;
  }

  lemma ImagesAreScoped(c: Text, id: CanonicalID, images: seq<Text>)
    ensures AllScoped(ImageEdges(c, id, images), id)
  {
    hide ImageEdges, KindTag, NodeKindName;
  }

  lemma UpsertedAreScoped(c: Text, s: Snapshot, p: KubePod)
    ensures AllScoped(RebuiltPodEdges(c, s, p), PodID(c, p))
  {
    hide PodID, PodMapsOf, RebuiltPodEdges, PodEdges, SelectorF, Flat, ImageEdges, IsPodScopedEdge;
    SelectionsAreScoped(c, s.services, p);
    PodEdgesAreScoped(PodMapsOf(c, s), PodID(c, p), p);
    ImagesAreScoped(c, PodID(c, p), p.containerImages);
    RebuiltSections(c, s, p);
  }

  /** The update's edges are those of the rebuild's pod pass, the images and the selections. */
  lemma RebuiltSections(c: Text, s: Snapshot, p: KubePod)
    ensures var m, id := PodMapsOf(c, s), PodID(c, p);
            forall e :: e in RebuiltPodEdges(c, s, p) <==>
              e in PodEdges(m, id, p) || e in ImageEdges(c, id, p.containerImages) || e in Flat(s.services, SelectorF(c, p))
  {
    hide PodMapsOf, PodID, ScheduledEdges, ImageEdges, RefEdges, ServiceAccountEdges, OwnerEdges, PodTargets, Flat, SelectorF;
  }

  ghost predicate Updates(s: Snapshot, namespace: Text, name: Text, change: ChangeType) {
    namespace != "" && name != "" && change == ChangeUpsert && FindPod(s.pods, namespace, name).ThePod?
  }

  lemma UpsertKeepsScope(cleared: Graph, c: Text, s: Snapshot, p: KubePod, ids: set<CanonicalID>)
    requires Only(cleared.edges, PodScope(PodID(c, p))) == map[]
    ensures Only(Pruned(WithPod(cleared, c, s, p), ids).edges, PodScope(PodID(c, p))) == ToEdges(RebuiltPodEdges(c, s, p))
  {
    var id, es := PodID(c, p), RebuiltPodEdges(c, s, p);
    PruningKeepsEdges(WithPod(cleared, c, s, p), ids);
    UpsertedAreScoped(c, s, p);
    hide RebuiltPodEdges, ToEdges, Only, PodID, ImageNodes, ToNodes, Pruned, PodNode, IsPodScopedEdge;
    OnlyUnion(cleared.edges, ToEdges(es), PodScope(id));
    OnlyAll(es, PodScope(id));
    assert map[] + ToEdges(es) == ToEdges(es);
  }

  lemma UpdatedEdges(g: Graph, c: Text, s: Snapshot, namespace: Text, name: Text, change: ChangeType)
    requires Updates(s, namespace, name, change)
    ensures var p := FindPod(s.pods, namespace, name).pod;
            Only(Reconciled(g, c, s, namespace, name, change).edges, PodScope(PodID(c, p))) == ToEdges(RebuiltPodEdges(c, s, p))
  {
    hide PodsDeleted, RebuiltPodEdges, ToEdges, Only, PodID, WithPod, ImagesReleased, Pruned, FindPod, IsPodScopedEdge;
    var p := FindPod(s.pods, namespace, name).pod;
    var id := PodID(c, p);
    PodIDIsNotEmpty(c, p);
    NothingScopedIsLeft(g, namespace, name, id);
    UpsertKeepsScope(PodsDeleted(g, namespace, name, id), c, s, p, ImagesReleased(g, namespace, name, id));
  }

  lemma PodIDIsNotEmpty(c: Text, p: KubePod)
    ensures PodID(c, p) != ""
  {
    assert KindTag(PodID(c, p)) == NodeKindName(Pod);
    assert KindTag("") == "";
  }

  lemma NothingScopedIsLeft(g: Graph, namespace: Text, name: Text, keep: CanonicalID)
    requires keep != ""
    ensures Only(PodsDeleted(g, namespace, name, keep).edges, PodScope(keep)) == map[]
  {
    hide StaleIDs, IsPodScopedEdge;
  }

  // ---- The rebuild's side ----

  /** If only one list element contributes within the scope, the pass contributes that element's part. */
  lemma {:induction false} OnlyOne<A>(xs: seq<A>, f: A -> seq<Edge>, p: EdgeKey -> bool, x: A)
    requires forall y | y in xs && y != x :: Only(ToEdges(f(y)), p) == map[]
    ensures Only(ToEdges(Flat(xs, f)), p) == if x in xs then Only(ToEdges(f(x)), p) else map[]
  {
    hide Only, ToEdges;
    if xs != [] {
      var init, last := xs[..|xs| - 1], xs[|xs| - 1];
      OnlyOne(init, f, p, x);
      assert xs == init + [last];
      OnlyAppend(Flat(init, f), f(last), p);
      hide Flat;
      var m := Only(ToEdges(f(x)), p);
      assert m + m == m && m + map[] == m && map[] + m == m;
    } else {
      OnlyEmpty(p);
    }
  }

  lemma DistinctPodsAreUnique(c: Text, pods: seq<KubePod>)
    requires DistinctPods(c, pods)
    ensures SR.UniquePods(c, pods)
  {
  }

  lemma OneEdge(e: Edge, p: EdgeKey -> bool)
    ensures Only(ToEdges([e]), p) == if p(e.Triple()) then ToEdges([e]) else map[]
    ensures Only(ToEdges([]), p) == map[] && ToEdges([]) == map[]
  {
    assert [e][..0] == [];
  }

  lemma OtherPodsEdges(m: PodMaps, id: CanonicalID, q: KubePod, other: CanonicalID)
    requires other != id
    ensures Only(ToEdges(PodEdges(m, other, q)), PodScope(id)) == map[]
  {
    PodEdgesAreScoped(m, other, q);
    hide PodEdges, ToEdges, Only;
    OnlyNone(PodEdges(m, other, q), PodScope(id));
  }

  lemma OwnPodEdges(m: PodMaps, id: CanonicalID, p: KubePod)
    ensures Only(ToEdges(PodEdges(m, id, p)), PodScope(id)) == ToEdges(PodEdges(m, id, p))
  {
    PodEdgesAreScoped(m, id, p);
    hide PodEdges, ToEdges, Only, IsPodScopedEdge;
    OnlyAll(PodEdges(m, id, p), PodScope(id));
  }

  lemma PodPass(c: Text, s: Snapshot, p: KubePod)
    requires DistinctPods(c, s.pods) && p in s.pods
    ensures Only(ToEdges(Flat(s.pods, PodEdgesF(c, s))), PodScope(PodID(c, p))) == ToEdges(PodEdges(PodMapsOf(c, s), PodID(c, p), p))
  {
    var f, id, m := PodEdgesF(c, s), PodID(c, p), PodMapsOf(c, s);
    DistinctPodsAreUnique(c, s.pods);
    forall q | q in s.pods
      ensures f(q) == PodEdges(m, PodID(c, q), q)
      ensures q != p ==> Only(ToEdges(f(q)), PodScope(id)) == map[]
    {
      SR.UniquePodsAreListed(c, s.pods, q);
      if q != p { OtherPodsEdges(m, id, q, PodID(c, q)); }
    }
    OwnPodEdges(m, id, p);
    hide PodMapsOf, PodEdges, PodID, Only, ToEdges, PodScope, PodEdgesF;
    OnlyOne(s.pods, f, PodScope(id), p);
  }

  lemma ImagesOfPod(c: Text, id: CanonicalID, other: CanonicalID, images: seq<Text>)
    ensures Only(ToEdges(ImageEdges(c, other, images)), PodScope(id)) == if other == id then ToEdges(ImageEdges(c, other, images)) else map[]
  {
    hide ImageEdges, KindTag, NodeKindName, Only, ToEdges;
    if other == id {
      OnlyAll(ImageEdges(c, other, images), PodScope(id));
    } else {
      OnlyNone(ImageEdges(c, other, images), PodScope(id));
    }
  }

  lemma ImagePass(c: Text, s: Snapshot, p: KubePod)
    requires DistinctPods(c, s.pods) && p in s.pods
    ensures var id := PodID(c, p);
            Only(ToEdges(Flat(s.pods, ImageEdgesF(c))), PodScope(id)) == ToEdges(ImageEdges(c, id, p.containerImages))
  {
    hide PodID, ImageEdges, Only, ToEdges, PodScope, Flat;
    forall q | q in s.pods { ImagesOfPod(c, PodID(c, p), PodID(c, q), q.containerImages); }
    OnlyOne(s.pods, ImageEdgesF(c), PodScope(PodID(c, p)), p);
  }

  lemma SelectionOf(c: Text, s: Snapshot, id: CanonicalID, v: KubeService, sid: CanonicalID, q: KubePod)
    requires SR.UniquePods(c, s.pods) && q in s.pods
    ensures var es := SelectEdges(sid, v, PodIDs(c, s.pods))(q);
            && (PodID(c, q) != id ==> Only(ToEdges(es), PodScope(id)) == map[])
            && (PodID(c, q) == id ==> Only(ToEdges(es), PodScope(id)) == ToEdges(es))
  {
    hide LabelsMatch, PodIDs, SR.UniquePods, PodID, Only, ToEdges;
    SR.UniquePodsAreListed(c, s.pods, q);
    OneEdge(NewEdge(sid, PodID(c, q), SelectsPod), PodScope(id));
  }

  lemma SelectedPods(c: Text, s: Snapshot, p: KubePod, v: KubeService, sid: CanonicalID)
    requires DistinctPods(c, s.pods) && p in s.pods
    ensures Only(ToEdges(Flat(s.pods, SelectEdges(sid, v, PodIDs(c, s.pods)))), PodScope(PodID(c, p))) ==
            ToEdges(SelectEdges(sid, v, PodIDs(c, s.pods))(p))
  {
    hide SelectEdges, Only, ToEdges, PodScope, PodID, PodIDs, Flat;
    var id, f := PodID(c, p), SelectEdges(sid, v, PodIDs(c, s.pods));
    DistinctPodsAreUnique(c, s.pods);
    forall q | q in s.pods { SelectionOf(c, s, id, v, sid, q); }
    OnlyOne(s.pods, f, PodScope(id), p);
  }

  lemma OneSelection(c: Text, s: Snapshot, p: KubePod, v: KubeService)
    requires DistinctPods(c, s.pods) && UniqueServices(c, s.services) && p in s.pods && v in s.services
    ensures Only(ToEdges(ServiceEdgesF(c, s)(v)), PodScope(PodID(c, p))) == ToEdges(SelectorF(c, p)(v))
  {
    hide PodID, ServiceID, LabelsMatch, Flat, Only, ToEdges, PodScope;
    IndexIsExact(s.services, ServiceKeyF(), ServiceIDF(c), v);
    DistinctPodsAreUnique(c, s.pods);
    SR.UniquePodsAreListed(c, s.pods, p);
    SelectedPods(c, s, p, v, ServiceID(c, v));
    hide Index, PodIDs, DistinctPods, UniqueServices, SR.UniquePods;
  }

  lemma ServicePass(c: Text, s: Snapshot, p: KubePod)
    requires DistinctPods(c, s.pods) && UniqueServices(c, s.services) && p in s.pods
    ensures Only(ToEdges(Flat(s.services, ServiceEdgesF(c, s))), PodScope(PodID(c, p))) == ToEdges(Flat(s.services, SelectorF(c, p)))
  {
    forall v | v in s.services { OneSelection(c, s, p, v); }
    hide Only, ToEdges, ServiceEdgesF, SelectorF, PodID;
    OnlyFlat(s.services, ServiceEdgesF(c, s), PodScope(PodID(c, p)), SelectorF(c, p));
  }

  lemma OtherPassesAreNotScoped(c: Text, x: Inferred, s: Snapshot, evidence: seq<Edge>, storage: seq<Edge>, id: CanonicalID)
    requires InferredShape(x) && EdgesIn(evidence, {AffectedByWebhook}) && EdgesIn(storage, STORAGE_EDGES)
    ensures Only(ToEdges(x.helmEdges), PodScope(id)) == map[]
    ensures Only(ToEdges(Flat(s.events, EventEdgesF(c, s))), PodScope(id)) == map[]
    ensures Only(ToEdges(Flat(s.roleBindings, RoleBindingEdgesF(c, s))), PodScope(id)) == map[]
    ensures Only(ToEdges(Flat(s.clusterRoleBindings, ClusterRoleBindingEdgesF(c, s))), PodScope(id)) == map[]
    ensures Only(ToEdges(Flat(s.workloads, WorkloadEdgesF(c, s))), PodScope(id)) == map[]
    ensures Only(ToEdges(x.controllerEdges), PodScope(id)) == map[]
    ensures Only(ToEdges(storage), PodScope(id)) == map[] && Only(ToEdges(evidence), PodScope(id)) == map[]
  {
    PassKinds(c, s);
    hide Flat, ToEdges, Only, EdgesIn, ImageEdgesF, EventEdgesF, PodEdgesF, RoleBindingEdgesF, ClusterRoleBindingEdgesF, WorkloadEdgesF,
         ServiceEdgesF;
    OnlyNoKind(x.helmEdges, HELM_EDGES, PodScope(id));
    OnlyNoKind(Flat(s.events, EventEdgesF(c, s)), {ReportedByEvent}, PodScope(id));
    OnlyNoKind(Flat(s.roleBindings, RoleBindingEdgesF(c, s)), {BoundByRoleBinding}, PodScope(id));
    OnlyNoKind(Flat(s.clusterRoleBindings, ClusterRoleBindingEdgesF(c, s)), {BoundByRoleBinding}, PodScope(id));
    OnlyNoKind(Flat(s.workloads, WorkloadEdgesF(c, s)), {ControlledBy}, PodScope(id));
    OnlyNoKind(x.controllerEdges, CONTROLLER_EDGES, PodScope(id));
    OnlyNoKind(storage, STORAGE_EDGES, PodScope(id));
    OnlyNoKind(evidence, {AffectedByWebhook}, PodScope(id));
  }

  lemma RebuiltEdges(c: Text, rules: seq<CSIRule>, x: Inferred, s: Snapshot, order: seq<string>, evidence: seq<Edge>, p: KubePod)
    requires InferredShape(x) && DistinctPods(c, s.pods) && UniqueServices(c, s.services) && p in s.pods
    requires EdgesIn(evidence, {AffectedByWebhook})
    ensures var id := PodID(c, p);
            Only(Rebuilt(c, rules, x, s, order, evidence).edges, PodScope(id)) ==
              ToEdges(ImageEdges(c, id, p.containerImages)) + ToEdges(PodEdges(PodMapsOf(c, s), id, p))
              + ToEdges(Flat(s.services, SelectorF(c, p)))
  {
    hide StorageMapsOf, Flat, StorageEdges, BuildDriverNames, BuildNodes, PodsAmong, Rebuilt, ToEdges, Only, EdgesIn, PodEdges,
         PodMapsOf, PodID, SelectorF, ImageEdges, DistinctPods, UniqueServices, InferredShape, PodScope, ImageEdgesF, EventEdgesF, PodEdgesF,
         RoleBindingEdgesF, ClusterRoleBindingEdgesF, WorkloadEdgesF, ServiceEdgesF;
    var id := PodID(c, p);
    var storage := StorageEdges(StorageMapsOf(c, rules, s), rules, s, PodsAmong(BuildNodes(c, rules, x, s)), order, BuildDriverNames(c, rules, x, s));
    StorageEdgeKinds(StorageMapsOf(c, rules, s), rules, s, PodsAmong(BuildNodes(c, rules, x, s)), order, BuildDriverNames(c, rules, x, s));
    OnlyRebuilt(c, rules, x, s, order, evidence, PodScope(id));
    OtherPassesAreNotScoped(c, x, s, evidence, storage, id);
    ImagePass(c, s, p);
    PodPass(c, s, p);
    ServicePass(c, s, p);
    EmptyIsNeutral<EdgeKey, Edge>();
  }

  /** The update upserts the images after the node, the rebuild before it: no key is in both. */
  lemma ImagesMove(c: Text, s: Snapshot, p: KubePod)
    ensures var id := PodID(c, p);
            ToEdges(RebuiltPodEdges(c, s, p)) ==
              ToEdges(ImageEdges(c, id, p.containerImages)) + ToEdges(PodEdges(PodMapsOf(c, s), id, p))
              + ToEdges(Flat(s.services, SelectorF(c, p)))
  {
    hide PodMapsOf, PodID, ImageEdges, Flat, SelectorF, ToEdges, ScheduledEdges, RebuiltPodEdges, PodEdges, RestOfPod;
    var m, id := PodMapsOf(c, s), PodID(c, p);
    var scheduled, images := ScheduledEdges(id, p, m.nodes), ImageEdges(c, id, p.containerImages);
    var rest, selected := RestOfPod(m, id, p), Flat(s.services, SelectorF(c, p));
    ScheduledKind(id, p, m.nodes);
    DisjointKinds(scheduled, images, ScheduledOn, UsesImage);
    Regrouped(c, s, p);
    PodEdgesRegrouped(m, id, p);
    ToEdgesAppend((scheduled + images) + rest, selected);
    ToEdgesAppend(scheduled + images, rest);
    ToEdgesAppend(scheduled, images);
    ToEdgesAppend(scheduled, rest);
    MapPlusIsAssociative(ToEdges(images), ToEdges(scheduled), ToEdges(rest));
  }

  lemma ScheduledKind(id: CanonicalID, p: KubePod, nodeIDs: map<string, CanonicalID>)
    ensures forall e | e in ScheduledEdges(id, p, nodeIDs) :: e.kind == ScheduledOn
  {
  }

  function RestOfPod(m: PodMaps, id: CanonicalID, p: KubePod): seq<Edge> {
    RefEdges(id, UsesConfigMap, p.meta.namespace, p.configMapRefs, m.configMaps)
    + RefEdges(id, UsesSecret, p.meta.namespace, p.secretRefs, m.secrets)
    + RefEdges(id, MountsPVC, p.meta.namespace, p.pvcRefs, m.pvcs)
    + ServiceAccountEdges(id, p, m.accounts) + OwnerEdges(id, PodTargets(m, p))
  }

  lemma Regrouped(c: Text, s: Snapshot, p: KubePod)
    ensures var m, id := PodMapsOf(c, s), PodID(c, p);
            RebuiltPodEdges(c, s, p) ==
              ((ScheduledEdges(id, p, m.nodes) + ImageEdges(c, id, p.containerImages)) + RestOfPod(m, id, p)) + Flat(s.services, SelectorF(c, p))
  {
    hide PodMapsOf, PodID, ScheduledEdges, ImageEdges, RefEdges, ServiceAccountEdges, OwnerEdges, PodTargets, Flat, SelectorF;
  }

  lemma PodEdgesRegrouped(m: PodMaps, id: CanonicalID, p: KubePod)
    ensures PodEdges(m, id, p) == ScheduledEdges(id, p, m.nodes) + RestOfPod(m, id, p)
  {
    hide ScheduledEdges, RefEdges, ServiceAccountEdges, OwnerEdges, PodTargets;
  }

  lemma DisjointKinds(a: seq<Edge>, b: seq<Edge>, ka: EdgeKind, kb: EdgeKind)
    requires ka != kb && (forall e | e in a :: e.kind == ka) && forall e | e in b :: e.kind == kb
    ensures ToEdges(a) + ToEdges(b) == ToEdges(b) + ToEdges(a)
  {
    ToEdgesMembers(a);
    ToEdgesMembers(b);
  }

  // ---- The pod's node ----

  lemma {:induction false} PodIsAmong(ns: seq<Node>, n: Node)
    requires n in ns && n.kind == Pod
    ensures n in PodsAmong(ns)
  {
    var init := ns[..|ns| - 1];
    assert ns == init + [ns[|ns| - 1]];
    if n in init {
      PodIsAmong(init, n);
    }
  }

  lemma {:induction false} AmongIsListed(ns: seq<Node>, n: Node)
    requires n in PodsAmong(ns)
    ensures n in ns
  {
    var init := ns[..|ns| - 1];
    assert ns == init + [ns[|ns| - 1]];
    if n in PodsAmong(init) {
      AmongIsListed(init, n);
    }
  }

  /** Of the nodes a rebuild lists, only the pod's own carries its identifier. */
  lemma OnlyThePod(c: Text, rules: seq<CSIRule>, x: Inferred, s: Snapshot, p: KubePod)
    requires InferredShape(x) && DistinctPods(c, s.pods) && p in s.pods
    ensures PodNode(c, p) in BuildNodes(c, rules, x, s)
    ensures forall n | n in BuildNodes(c, rules, x, s) && n.id == PodID(c, p) :: n == PodNode(c, p)
  {
    var ns := BuildNodes(c, rules, x, s);
    InfraPodsAreThePods(c, rules, x, s);
    hide BuildNodes, Flat, PodsAmong, PodID, PodNode, DistinctPods;
    PodNodesAmong(c, s, p);
    AmongIsListed(ns, PodNode(c, p));
    forall n | n in ns && n.id == PodID(c, p)
      ensures n == PodNode(c, p)
    {
      PodNodeIsOfAPod(c, rules, x, s, p, n);
      PodIsAmong(ns, n);
    }
  }

  lemma PodNodesAmong(c: Text, s: Snapshot, p: KubePod)
    requires DistinctPods(c, s.pods) && p in s.pods
    ensures PodNode(c, p) in Flat(s.pods, PodNodeF(c))
    ensures forall n | n in Flat(s.pods, PodNodeF(c)) && n.id == PodID(c, p) :: n == PodNode(c, p)
  {
    FlatMembers(s.pods, PodNodeF(c));
    hide Flat, PodID;
    assert PodNode(c, p) in PodNodeF(c)(p);
  }

  lemma PodNodeIsOfAPod(c: Text, rules: seq<CSIRule>, x: Inferred, s: Snapshot, p: KubePod, n: Node)
    requires InferredShape(x) && n in BuildNodes(c, rules, x, s) && n.id == PodID(c, p)
    ensures n.kind == Pod
  {
    SR.BuildNodesAreNamed(c, rules, x, s);
    PodIDIsTagged(c, p);
    NodeKindNameIsInjective(n.kind, Pod);
    hide BuildNodes, SR.NamedDriver, PodID;
  }

  lemma PodIDIsTagged(c: Text, p: KubePod)
    ensures KindTag(PodID(c, p)) == NodeKindName(Pod)
  {
  }

  lemma RebuiltNode(c: Text, rules: seq<CSIRule>, x: Inferred, s: Snapshot, p: KubePod)
    requires InferredShape(x) && DistinctPods(c, s.pods) && p in s.pods
    ensures var m := ToNodes(BuildNodes(c, rules, x, s)); PodID(c, p) in m && m[PodID(c, p)] == PodNode(c, p)
  {
    OnlyThePod(c, rules, x, s, p);
    ToNodesMembers(BuildNodes(c, rules, x, s));
    hide BuildNodes, ToNodes, PodID;
  }

  lemma PodIsAdded(g: Graph, c: Text, s: Snapshot, p: KubePod)
    ensures var m := WithPod(g, c, s, p).nodes; PodID(c, p) in m && m[PodID(c, p)] == PodNode(c, p)
  {
    var images := ImageNodes(c, p.containerImages);
    ImageNodeKinds(c, p.containerImages);
    ToNodesMembers(images);
    if PodID(c, p) in ToNodes(images) {
      NodeKindNameIsInjective(Image, Pod);
    }
    hide RebuiltPodEdges, ToNodes, ImageNodes, PodID;
  }

  lemma PrunedKeepsPods(g: Graph, ids: set<CanonicalID>, id: CanonicalID)
    requires id in g.nodes && g.nodes[id].kind == Pod
    ensures id in Pruned(g, ids).nodes && Pruned(g, ids).nodes[id] == g.nodes[id]
  {
  }

  lemma UpdatedNode(g: Graph, c: Text, s: Snapshot, namespace: Text, name: Text, change: ChangeType)
    requires Updates(s, namespace, name, change)
    ensures var p, r := FindPod(s.pods, namespace, name).pod, Reconciled(g, c, s, namespace, name, change);
            PodID(c, p) in r.nodes && r.nodes[PodID(c, p)] == PodNode(c, p)
  {
    var p := FindPod(s.pods, namespace, name).pod;
    var id := PodID(c, p);
    hide PodsDeleted, WithPod, Pruned, ImagesReleased, PodID;
    PodIsAdded(PodsDeleted(g, namespace, name, id), c, s, p);
    PrunedKeepsPods(WithPod(PodsDeleted(g, namespace, name, id), c, s, p), ImagesReleased(g, namespace, name, id), id);
  }

  /** Narrow equals full around a pod: from any prior state an update leaves the pod the node and exactly the edges of the nine
      scoped kinds that a full rebuild of the snapshot gives it. */
  lemma PodUpdateMatchesRebuild(g: Graph, c: Text, rules: seq<CSIRule>, x: Inferred, s: Snapshot, order: seq<string>, evidence: seq<Edge>,
                                namespace: Text, name: Text, change: ChangeType)
    requires InferredShape(x) && DistinctPods(c, s.pods) && UniqueServices(c, s.services) && EdgesIn(evidence, {AffectedByWebhook})
    requires Updates(s, namespace, name, change)
    ensures var narrow, full := Reconciled(g, c, s, namespace, name, change), Rebuilt(c, rules, x, s, order, evidence);
            var id := PodID(c, FindPod(s.pods, namespace, name).pod);
            && Only(narrow.edges, PodScope(id)) == Only(full.edges, PodScope(id))
            && id in narrow.nodes && id in full.nodes && narrow.nodes[id] == full.nodes[id]
  {
    var p := FindPod(s.pods, namespace, name).pod;
    FindPodFinds(s.pods, namespace, name);
    UpdatedEdges(g, c, s, namespace, name, change);
    RebuiltEdges(c, rules, x, s, order, evidence, p);
    ImagesMove(c, s, p);
    UpdatedNode(g, c, s, namespace, name, change);
    RebuiltNode(c, rules, x, s, p);
    SR.RebuiltNodesOf(c, rules, x, s, order, evidence);
    hide Reconciled, Rebuilt, Only, PodID, ToEdges, ToNodes, BuildNodes, RebuiltPodEdges, PodEdges, ImageEdges, PodNode;
  }

  // ---- What an update leaves alone ----

  /** No other pod keeps the name. */
  lemma NoOtherPodKeepsTheName(g: Graph, c: Text, s: Snapshot, namespace: Text, name: Text, change: ChangeType, id: CanonicalID)
    requires g.Valid() && namespace != "" && name != ""
    requires id in Reconciled(g, c, s, namespace, name, change).nodes
    requires var n := Reconciled(g, c, s, namespace, name, change).nodes[id]; n.kind == Pod && n.namespace == namespace && n.name == name
    ensures id == KeptID(c, s, namespace, name, change)
  {
    var keep := KeptID(c, s, namespace, name, change);
    hide RebuiltPodEdges, ImagesReleased, PodID, ToEdges, ImageNodes, ToNodes, FindPod;
    if FindPod(s.pods, namespace, name).ThePod? && change == ChangeUpsert {
      var p := FindPod(s.pods, namespace, name).pod;
      ImageNodeKinds(c, p.containerImages);
      ToNodesMembers(ImageNodes(c, p.containerImages));
    }
  }

  lemma UnscopedSurviveDeletion(g: Graph, namespace: Text, name: Text, keep: CanonicalID, k: EdgeKey)
    requires keep == "" || !IsPodScopedEdge(k, keep)
    ensures var r, stale := PodsDeleted(g, namespace, name, keep), StaleIDs(g, namespace, name, keep);
            && (k in r.edges <==> k in g.edges && k.from !in stale && k.to !in stale)
            && (k in r.edges ==> r.edges[k] == g.edges[k])
  {
    hide StaleIDs, IsPodScopedEdge;
  }

  lemma UnscopedSurviveUpsert(cleared: Graph, c: Text, s: Snapshot, p: KubePod, ids: set<CanonicalID>, k: EdgeKey)
    requires !IsPodScopedEdge(k, PodID(c, p))
    ensures var r := Pruned(WithPod(cleared, c, s, p), ids);
            (k in r.edges <==> k in cleared.edges) && (k in r.edges ==> r.edges[k] == cleared.edges[k])
  {
    PruningKeepsEdges(WithPod(cleared, c, s, p), ids);
    UpsertedAreScoped(c, s, p);
    ToEdgesMembers(RebuiltPodEdges(c, s, p));
    hide RebuiltPodEdges, PodID, ToEdges, ToNodes, ImageNodes, Pruned, IsPodScopedEdge;
  }

  lemma StaleAre(g: Graph, namespace: Text, name: Text, keep: CanonicalID)
    ensures StaleIDs(g, namespace, name, keep) ==
      set id | id in g.nodes && g.nodes[id].kind == Pod && g.nodes[id].namespace == namespace && g.nodes[id].name == name && g.nodes[id].id != keep
  {
  }

  /** An edge outside the scope of the kept pod survives exactly when it touches no stale pod of the name. */
  lemma OtherEdgesSurvive(g: Graph, c: Text, s: Snapshot, namespace: Text, name: Text, change: ChangeType, k: EdgeKey)
    requires namespace != "" && name != ""
    requires var keep := KeptID(c, s, namespace, name, change); keep == "" || !IsPodScopedEdge(k, keep)
    ensures var r, keep := Reconciled(g, c, s, namespace, name, change), KeptID(c, s, namespace, name, change);
            var stale := set id | id in g.nodes && g.nodes[id].kind == Pod && g.nodes[id].namespace == namespace && g.nodes[id].name == name
                                  && g.nodes[id].id != keep;
            && (k in r.edges <==> k in g.edges && k.from !in stale && k.to !in stale)
            && (k in r.edges ==> r.edges[k] == g.edges[k])
  {
    StaleAre(g, namespace, name, KeptID(c, s, namespace, name, change));
    hide WithPod, ImagesReleased, PodID, StaleIDs, Pruned, FindPod, IsPodScopedEdge, PodsDeleted;
    var keep := KeptID(c, s, namespace, name, change);
    var released := ImagesReleased(g, namespace, name, keep);
    UnscopedSurviveDeletion(g, namespace, name, keep, k);
    if FindPod(s.pods, namespace, name).ThePod? && change == ChangeUpsert {
      var p := FindPod(s.pods, namespace, name).pod;
      PodIDIsNotEmpty(c, p);
      UnscopedSurviveUpsert(PodsDeleted(g, namespace, name, keep), c, s, p, released, k);
    } else {
      PruningKeepsEdges(PodsDeleted(g, namespace, name, ""), released);
    }
  }
}
