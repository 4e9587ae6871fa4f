/** Whole runs: a bootstrap and any sequence of updates, and what every graph along the way satisfies. */
module Runs {
  import opened Identity
  import opened GraphModel
  import opened Resources
  import opened OwnerChain
  import opened Csi
  import opened Builder
  import opened RebuildSections
  import opened KernelLoops
  import opened Changes
  import opened EdgeTyping
  import SR = StorageRefinement
  import Storage = StorageReconciler
  import Identities = IdentityReconciler
  import Pods = PodReconciler
  import PodRef = PodRefinement
  import Workloads = WorkloadReconciler
  import Services = ServiceReconciler
  import Events = EventReconciler
  import Controllers = ControllerRules

  /** What happens to the graph. `evidence` and `order` stand for the map orders the source met on the way. */
  datatype Step =
    | Bootstrap(snapshot: Snapshot, order: seq<string>, evidence: seq<Edge>)
    | StorageStep(snapshot: Snapshot, order: seq<string>)
    | IdentityStep(snapshot: Snapshot)
    | PodStep(snapshot: Snapshot, namespace: Text, name: Text, change: ChangeType)
    | WorkloadStep(snapshot: Snapshot, namespace: Text, name: Text, change: ChangeType, evidence: seq<Edge>)
    | ServiceStep(snapshot: Snapshot, namespace: Text, name: Text, change: ChangeType)
    | EventStep(snapshot: Snapshot, namespace: Text, name: Text, change: ChangeType, evidence: seq<Edge>)

  /** A cluster, its CSI rules, and the inference modules outside this model as a function of the snapshot. */
  datatype Config = Config(cluster: Text, rules: seq<CSIRule>, infer: Snapshot -> Inferred)

  /** Inferred edges touch no image and are of the inferred kinds. */
  ghost predicate InfersWell(cfg: Config) {
    forall s :: InferredShape(cfg.infer(s)) && Regular(cfg.infer(s).helmEdges) && Regular(cfg.infer(s).controllerEdges)
  }

  ghost predicate Allowed(cfg: Config, g: Graph, step: Step) {
    match step
    case Bootstrap(s, order, evidence) =>
      IsEnumeration(order, CSIDriverIDs(cfg.cluster, cfg.rules, s)) && Events.IsSnapshotEvidence(evidence, cfg.cluster, s)
    case StorageStep(s, order) => IsEnumeration(order, CSIDriverIDs(cfg.cluster, cfg.rules, s))
    case WorkloadStep(s, namespace, name, change, evidence) =>
      var kept := Workloads.Kept(cfg.cluster, s, namespace, name, change);
      namespace != "" && name != "" && kept != [] ==>
        Workloads.IsWorkloadEvidence(evidence, cfg.cluster, s, Workloads.WorkloadIDSet(cfg.cluster, kept),
                                     Workloads.Prepared(g, cfg.cluster, s, namespace, name, change).nodes)
    case EventStep(s, namespace, name, change, evidence) =>
      namespace != "" && name != "" ==> Events.IsSnapshotEvidence(evidence, cfg.cluster, s)
    case _ => true
  }

  ghost function After(cfg: Config, g: Graph, step: Step): Graph {
    var c := cfg.cluster;
    match step
    case Bootstrap(s, order, evidence) => Rebuilt(c, cfg.rules, cfg.infer(s), s, order, evidence)
    case StorageStep(s, order) => Storage.Reconciled(g, c, cfg.rules, s, order)
    case IdentityStep(s) => Identities.Reconciled(g, c, s)
    case PodStep(s, namespace, name, change) =>
      Controllers.Reconciled(Pods.Reconciled(g, c, s, namespace, name, change), cfg.infer(s).controllerEdges)
    case WorkloadStep(s, namespace, name, change, evidence) =>
      Controllers.Reconciled(Workloads.Reconciled(g, c, s, namespace, name, change, evidence), cfg.infer(s).controllerEdges)
    case ServiceStep(s, namespace, name, change) => Services.Reconciled(g, c, s, namespace, name, change)
    case EventStep(s, namespace, name, change, evidence) => Events.Reconciled(g, c, s, namespace, name, change, evidence)
  }

  /** The graph after a run from the empty kernel. */
  ghost function Run(cfg: Config, steps: seq<Step>): Graph {
    if steps == [] then EMPTY_GRAPH else After(cfg, Run(cfg, steps[..|steps| - 1]), steps[|steps| - 1])
  }

  ghost predicate IsRun(cfg: Config, steps: seq<Step>) {
    steps == [] || (IsRun(cfg, steps[..|steps| - 1]) && Allowed(cfg, Run(cfg, steps[..|steps| - 1]), steps[|steps| - 1]))
  }

  // ---- The invariant ----

  ghost predicate TypedEdge(k: EdgeKey) {
    if k.kind == UsesImage then KindTag(k.from) == NodeKindName(Pod) && KindTag(k.to) == NodeKindName(Image)
    else NotImage(k.from) && NotImage(k.to)
  }

  ghost predicate PairedKeys(m: EdgeMap) {
    forall a, b :: EdgeKey(a, ManagedBy, b) in m <==> EdgeKey(b, OwnsPod, a) in m
  }

  ghost predicate IsUsed(g: Graph, image: CanonicalID) {
    exists p :: EdgeKey(p, UsesImage, image) in g.edges
  }

  ghost predicate Stored(g: Graph, id: CanonicalID, kind: NodeKind) {
    id in g.nodes && g.nodes[id].kind == kind
  }

  /** Every image is used but for those in `loose`; every use runs from a stored pod to a stored image. */
  ghost predicate Imaged(g: Graph, loose: set<CanonicalID>) {
    && (forall id | Stored(g, id, Image) && id !in loose :: IsUsed(g, id))
    && (forall k | k in g.edges && k.kind == UsesImage :: Stored(g, k.from, Pod) && Stored(g, k.to, Image))
  }

  ghost predicate Typed(g: Graph) {
    && g.Valid()
    && (forall id | id in g.nodes :: Coherent(g.nodes[id]))
    && (forall k | k in g.edges :: TypedEdge(k))
  }

  ghost predicate Inv(g: Graph, loose: set<CanonicalID>) {
    Typed(g) && PairedKeys(g.edges) && Imaged(g, loose)
  }

  lemma EmptyIsFine()
    ensures Inv(EMPTY_GRAPH, {})
  {
  }

  // ---- Upserting ----

  ghost predicate Lists(ns: seq<Node>, id: CanonicalID, kind: NodeKind) {
    exists n | n in ns :: n.id == id && n.kind == kind
  }

  ghost predicate Uses(es: seq<Edge>, image: CanonicalID) {
    exists e | e in es :: e.kind == UsesImage && e.to == image
  }

  /** Lists that may be upserted together: typed, paired, images listed with uses and uses with their ends. */
  ghost predicate Upsertable(ns: seq<Node>, es: seq<Edge>) {
    && (forall n | n in ns :: Coherent(n))
    && (forall e | e in es :: TypedEdge(e.Triple()))
    && Paired(es)
    && (forall n | n in ns && n.kind == Image :: Uses(es, n.id))
    && (forall e | e in es && e.kind == UsesImage :: Lists(ns, e.from, Pod) && Lists(ns, e.to, Image))
  }

  /** A coherent upsert keeps every stored node's kind. */
  lemma KindsPersist(g: Graph, ns: seq<Node>, es: seq<Edge>, id: CanonicalID, kind: NodeKind)
    requires Typed(g) && forall n | n in ns :: Coherent(n)
    ensures Stored(g.WithAll(ns, es), id, kind) <==> Stored(g, id, kind) || Lists(ns, id, kind)
  {
    ToNodesMembers(ns);
    hide ToNodes, ToEdges, NodeKindName, KindTag;
    var m := ToNodes(ns);
    if Lists(ns, id, kind) {
      var n :| n in ns && n.id == id && n.kind == kind;
      KindsAgree(m[id], n);
    } else if id in m && id in g.nodes {
      KindsAgree(m[id], g.nodes[id]);
    }
  }

  lemma KindsAgree(n: Node, m: Node)
    requires Coherent(n) && Coherent(m) && n.id == m.id
    ensures n.kind == m.kind
  {
    NodeKindNameIsInjective(n.kind, m.kind);
  }

  lemma UpsertsStayTyped(g: Graph, ns: seq<Node>, es: seq<Edge>)
    requires Typed(g) && (forall n | n in ns :: Coherent(n)) && forall e | e in es :: TypedEdge(e.Triple())
    ensures Typed(g.WithAll(ns, es))
  {
    ToNodesMembers(ns);
    ToEdgesMembers(es);
    hide ToNodes, ToEdges, TypedEdge, Coherent;
  }

  lemma ListedKeys(es: seq<Edge>, k: EdgeKey)
    ensures k in ToEdges(es) <==> HasEdge(es, k)
  {
    ToEdgesMembers(es);
    hide ToEdges;
  }

  lemma UpsertsStayPaired(m: EdgeMap, es: seq<Edge>)
    requires PairedKeys(m) && Paired(es)
    ensures PairedKeys(m + ToEdges(es))
  {
    forall k { ListedKeys(es, k); }
    hide ToEdges, HasEdge;
  }

  lemma UpsertsStayImaged(g: Graph, ns: seq<Node>, es: seq<Edge>, loose: set<CanonicalID>)
    requires Typed(g) && Imaged(g, loose) && Upsertable(ns, es)
    ensures Imaged(g.WithAll(ns, es), loose)
  {
    var r := g.WithAll(ns, es);
    ToEdgesMembers(es);
    hide ToEdges, ToNodes, TypedEdge, Coherent, Paired, Typed;
    assert forall n | n in ns :: Coherent(n);
    forall id, kind { KindsPersist(g, ns, es, id, kind); }
    hide Lists, Stored;
    forall id | Stored(r, id, Image) && id !in loose
      ensures IsUsed(r, id)
    {
      UseIsKept(g, ns, es, id);
    }
  }

  lemma UseIsKept(g: Graph, ns: seq<Node>, es: seq<Edge>, id: CanonicalID)
    requires IsUsed(g, id) || (Lists(ns, id, Image) && Upsertable(ns, es))
    ensures IsUsed(g.WithAll(ns, es), id)
  {
    var r := g.WithAll(ns, es);
    ToEdgesMembers(es);
    hide ToEdges, ToNodes, TypedEdge, Coherent, Paired;
    if IsUsed(g, id) {
      var p :| EdgeKey(p, UsesImage, id) in g.edges;
      assert EdgeKey(p, UsesImage, id) in r.edges;
    } else {
      var e :| e in es && e.kind == UsesImage && e.to == id;
      assert EdgeKey(e.from, UsesImage, id) == e.Triple();
    }
  }

  lemma UpsertKeeps(g: Graph, ns: seq<Node>, es: seq<Edge>, loose: set<CanonicalID>)
    requires Inv(g, loose) && Upsertable(ns, es)
    ensures Inv(g.WithAll(ns, es), loose)
  {
    UpsertsStayTyped(g, ns, es);
    UpsertsStayPaired(g.edges, es);
    UpsertsStayImaged(g, ns, es, loose);
    hide Typed, Imaged, PairedKeys;
  }

  lemma RegularIsUpsertable(ns: seq<Node>, kinds: set<NodeKind>, es: seq<Edge>)
    requires NodesIn(ns, kinds) && Image !in kinds && Regular(es)
    ensures Upsertable(ns, es)
  {
    hide Coherent, NotImage;
  }

  // ---- Deleting ----

  lemma DropNodesTyped(g: Graph, ids: set<CanonicalID>)
    requires Typed(g) && PairedKeys(g.edges)
    ensures Typed(g.WithoutNodes(ids)) && PairedKeys(g.WithoutNodes(ids).edges)
  {
    hide TypedEdge, Coherent;
  }

  lemma UseSurvives(g: Graph, r: Graph, id: CanonicalID)
    requires IsUsed(g, id) && forall k | k in g.edges && k.kind == UsesImage && k.to == id :: k in r.edges
    ensures IsUsed(r, id)
  {
    var p :| EdgeKey(p, UsesImage, id) in g.edges;
    assert EdgeKey(p, UsesImage, id) in r.edges;
  }

  lemma UsesAvoidOthers(g: Graph, ids: set<CanonicalID>, loose: set<CanonicalID>)
    requires Imaged(g, loose) && forall id | id in ids :: id in g.nodes && g.nodes[id].kind != Pod && g.nodes[id].kind != Image
    ensures forall k | k in g.edges && k.kind == UsesImage :: k.from !in ids && k.to !in ids && k in g.WithoutNodes(ids).edges
  {
    hide IsUsed;
  }

  /** Deleting nodes that are neither pods nor images touches no use of an image. */
  lemma DropNodesKeeps(g: Graph, ids: set<CanonicalID>, loose: set<CanonicalID>)
    requires Inv(g, loose) && forall id | id in ids :: id in g.nodes && g.nodes[id].kind != Pod && g.nodes[id].kind != Image
    ensures Inv(g.WithoutNodes(ids), loose)
  {
    DropNodesTyped(g, ids);
    UsesAvoidOthers(g, ids, loose);
    hide Typed, PairedKeys, IsUsed;
    var r := g.WithoutNodes(ids);
    forall id | Stored(r, id, Image) && id !in loose
      ensures IsUsed(r, id)
    {
      assert Stored(g, id, Image);
      UseSurvives(g, r, id);
    }
  }

  /** A deletion of edges that keeps ownership edges paired. */
  ghost predicate Balanced(doomed: EdgeKey -> bool) {
    forall a, b :: doomed(EdgeKey(a, ManagedBy, b)) <==> doomed(EdgeKey(b, OwnsPod, a))
  }

  /** Deleting edges loosens the images whose uses go. */
  lemma DropEdgesKeeps(g: Graph, doomed: EdgeKey -> bool, loose: set<CanonicalID>, loose': set<CanonicalID>)
    requires Inv(g, loose) && Balanced(doomed) && loose <= loose'
    requires forall k | k in g.edges && k.kind == UsesImage && doomed(k) :: k.to in loose'
    ensures Inv(g.WithoutEdges(doomed), loose')
  {
    hide TypedEdge, Coherent, IsUsed;
    var r := g.WithoutEdges(doomed);
    forall id | Stored(r, id, Image) && id !in loose'
      ensures IsUsed(r, id)
    {
      assert Stored(g, id, Image);
      UseSurvives(g, r, id);
    }
  }

  // ---- Deleting pods and pruning images ----

  lemma DropPodsLoosens(g: Graph, ids: set<CanonicalID>)
    requires Inv(g, {})
    ensures Inv(g.WithoutNodes(ids), Pods.ImagesAmong(g, ids))
  {
    DropNodesTyped(g, ids);
    hide Typed, PairedKeys, IsUsed, Pods.ImagesAmong;
    var r := g.WithoutNodes(ids);
    forall id | Stored(r, id, Image) && id !in Pods.ImagesAmong(g, ids)
      ensures IsUsed(r, id)
    {
      assert Stored(g, id, Image);
      UnreleasedUsesSurvive(g, ids, id);
      UseSurvives(g, r, id);
    }
  }

  lemma UnreleasedUsesSurvive(g: Graph, ids: set<CanonicalID>, image: CanonicalID)
    requires image !in ids && image !in Pods.ImagesAmong(g, ids)
    ensures forall k | k in g.edges && k.kind == UsesImage && k.to == image :: k in g.WithoutNodes(ids).edges
  {
  }

  lemma PodScopeIsBalanced(keep: CanonicalID)
    ensures Balanced(Pods.PodScope(keep))
  {
  }

  lemma DropScopeLoosens(g: Graph, keep: CanonicalID, loose: set<CanonicalID>)
    requires Inv(g, loose)
    ensures Inv(g.WithoutEdges(Pods.PodScope(keep)), loose + Pods.ImagesAmong(g, {keep}))
  {
    PodScopeIsBalanced(keep);
    hide Inv, Balanced;
    DropEdgesKeeps(g, Pods.PodScope(keep), loose, loose + Pods.ImagesAmong(g, {keep}));
  }

  lemma DeletionLoosens(g: Graph, namespace: Text, name: Text, keep: CanonicalID)
    requires Inv(g, {})
    ensures Inv(Pods.PodsDeleted(g, namespace, name, keep), Pods.ImagesReleased(g, namespace, name, keep))
  {
    hide Inv, Pods.ImagesAmong, Pods.StaleIDs, Graph.WithoutNodes, Graph.WithoutEdges;
    var stale := Pods.StaleIDs(g, namespace, name, keep);
    DropPodsLoosens(g, stale);
    if keep != "" {
      DropScopeLoosens(g.WithoutNodes(stale), keep, Pods.ImagesAmong(g, stale));
    } else {
      assert Pods.ImagesAmong(g, stale) + {} == Pods.ImagesAmong(g, stale);
    }
  }

  /** Only a use touches an image, so an image without one is an orphan. */
  lemma UnusedIsOrphan(g: Graph, id: CanonicalID)
    requires Typed(g) && Stored(g, id, Image) && !IsUsed(g, id)
    ensures Pods.IsOrphanImage(g, id)
  {
    hide KindTag, NodeKindName;
    forall k | k in g.edges
      ensures !TouchesKey(k, id)
    {
      assert TypedEdge(k) && Coherent(g.nodes[id]);
      if k.kind == UsesImage {
        PodsAreNotImages(k.from, id);
        assert k == EdgeKey(k.from, UsesImage, k.to);
      }
    }
  }

  lemma PodsAreNotImages(a: CanonicalID, b: CanonicalID)
    requires KindTag(a) == NodeKindName(Pod) && KindTag(b) == NodeKindName(Image)
    ensures a != b
  {
    if a == b { NodeKindNameIsInjective(Pod, Image); }
  }

  lemma PrunedUses(g: Graph, ids: set<CanonicalID>)
    requires Typed(g) && Imaged(g, ids)
    ensures Imaged(Pods.Pruned(g, ids), {})
  {
    var r := Pods.Pruned(g, ids);
    Pods.PruningKeepsEdges(g, ids);
    hide Typed, IsUsed, Pods.IsOrphanImage;
    forall id | Stored(r, id, Image)
      ensures IsUsed(r, id)
    {
      assert Stored(g, id, Image);
      if !IsUsed(g, id) {
        UnusedIsOrphan(g, id);
        assert false;
      }
      UseSurvives(g, r, id);
    }
    forall k | k in r.edges && k.kind == UsesImage
      ensures Stored(r, k.from, Pod) && Stored(r, k.to, Image)
    {
      NoOrphanIsTouched(g, k);
    }
  }

  lemma NoOrphanIsTouched(g: Graph, k: EdgeKey)
    requires k in g.edges
    ensures !Pods.IsOrphanImage(g, k.from) && !Pods.IsOrphanImage(g, k.to)
  {
    assert TouchesKey(k, k.from) && TouchesKey(k, k.to);
  }

  lemma PruningTightens(g: Graph, ids: set<CanonicalID>)
    requires Inv(g, ids)
    ensures Inv(Pods.Pruned(g, ids), {})
  {
    DropNodesTyped(g, Pods.Orphans(g, ids));
    hide Typed, PairedKeys, Imaged;
    PrunedUses(g, ids);
  }

  // ---- What a pod update and a rebuild upsert ----

  /** An edge list made of regular edges and uses of images. */
  ghost predicate Mixed(es: seq<Edge>, regular: seq<Edge>, images: seq<Edge>) {
    && (forall e :: e in es <==> e in regular || e in images)
    && Regular(regular)
    && (forall e | e in images :: e.kind == UsesImage && TypedEdge(e.Triple()))
  }

  lemma MixedIsUpsertable(ns: seq<Node>, es: seq<Edge>, regular: seq<Edge>, images: seq<Edge>)
    requires Mixed(es, regular, images)
    requires forall n | n in ns :: Coherent(n)
    requires forall n | n in ns && n.kind == Image :: Uses(images, n.id)
    requires forall e | e in images :: Lists(ns, e.from, Pod) && Lists(ns, e.to, Image)
    ensures Upsertable(ns, es)
  {
    hide Coherent, NotImage;
    forall k: EdgeKey | k.kind != UsesImage
      ensures HasEdge(es, k) <==> HasEdge(regular, k)
    {
      if HasEdge(es, k) {
        var e :| e in es && e.Triple() == k;
        assert e.kind == k.kind;
      }
    }
    hide HasEdge, Lists;
    forall n | n in ns && n.kind == Image
      ensures Uses(es, n.id)
    {
      var e :| e in images && e.kind == UsesImage && e.to == n.id;
      assert e in es;
    }
  }

  lemma ImageEdgesAreTyped(c: Text, p: KubePod)
    ensures forall e | e in ImageEdges(c, PodID(c, p), p.containerImages) :: e.kind == UsesImage && TypedEdge(e.Triple())
  {
    hide ImageEdges, NodeKindName, KindTag;
    PodRef.PodIDIsTagged(c, p);
  }

  /** The images of a pod and the edges to them name each other. */
  lemma {:induction false} ImagesAndUsesMatch(c: Text, podID: CanonicalID, images: seq<Text>)
    ensures forall n | n in ImageNodes(c, images) :: Uses(ImageEdges(c, podID, images), n.id)
    ensures forall e | e in ImageEdges(c, podID, images) :: Lists(ImageNodes(c, images), e.to, Image)
  {
    hide ImageID;
    if images != [] {
      var init := images[..|images| - 1];
      ImagesAndUsesMatch(c, podID, init);
      var n, e := ImageNode(c, images[|images| - 1], |images| - 1), NewEdge(podID, ImageID(c, images[|images| - 1]), UsesImage);
      var ns, es := ImageNodes(c, init), ImageEdges(c, podID, init);
      assert ImageNodes(c, images) == ns + [n] && ImageEdges(c, podID, images) == es + [e];
      assert e in es + [e] && n in ns + [n];
      hide ImageNodes, ImageEdges;
      UsesGrow(es, [e]);
      ListsGrow(ns, [n]);
    }
  }

  lemma UsesGrow(es: seq<Edge>, more: seq<Edge>)
    ensures forall id :: Uses(es + more, id) <==> Uses(es, id) || Uses(more, id)
  {
    assert forall e :: e in es + more <==> e in es || e in more;
  }

  lemma ListsGrow(ns: seq<Node>, more: seq<Node>)
    ensures forall id, kind :: Lists(ns + more, id, kind) <==> Lists(ns, id, kind) || Lists(more, id, kind)
  {
    assert forall n :: n in ns + more <==> n in ns || n in more;
  }

  lemma SelectionsAreRegular(c: Text, s: Snapshot, p: KubePod)
    ensures Regular(Flat(s.services, Pods.SelectorF(c, p)))
  {
    hide NotImage, LabelsMatch, PodID, ServiceID, Flat;
    IDsAreNotImages(c);
    forall v | v in s.services
      ensures Regular(Pods.SelectorF(c, p)(v))
    {
      RegularUnowned(Pods.SelectorF(c, p)(v), {SelectsPod});
    }
    hide Regular;
    RegularFlat(s.services, Pods.SelectorF(c, p));
  }

  lemma PodPartsAreMixed(c: Text, s: Snapshot, p: KubePod)
    ensures Mixed(Pods.RebuiltPodEdges(c, s, p), PodEdges(PodMapsOf(c, s), PodID(c, p), p) + Flat(s.services, Pods.SelectorF(c, p)),
                  ImageEdges(c, PodID(c, p), p.containerImages))
  {
    hide PodMapsOf, PodID, PodEdges, Flat, ImageEdges, Pods.SelectorF, Pods.RebuiltPodEdges, TypedEdge, Regular, NotImage, PodTargets,
         TypedPodMaps, TypedTargets;
    PodRef.RebuiltSections(c, s, p);
    IDsAreNotImages(c);
    PodMapsAreTyped(c, s);
    PodTargetsAreTyped(c, s, p);
    PodEdgesAreRegular(PodMapsOf(c, s), PodID(c, p), p);
    SelectionsAreRegular(c, s, p);
    RegularAppend(PodEdges(PodMapsOf(c, s), PodID(c, p), p), Flat(s.services, Pods.SelectorF(c, p)));
    ImageEdgesAreTyped(c, p);
  }

  lemma PodNodesAreCoherent(c: Text, p: KubePod)
    ensures NodesIn([PodNode(c, p)] + ImageNodes(c, p.containerImages), {Pod, Image})
    ensures PodNode(c, p).kind == Pod && PodNode(c, p).id == PodID(c, p)
  {
    hide ImageNodes, KindTag, NodeKindName, PodID;
    ImageNodeKinds(c, p.containerImages);
    PodRef.PodIDIsTagged(c, p);
  }

  lemma PodIsUpsertable(c: Text, s: Snapshot, p: KubePod)
    ensures Upsertable([PodNode(c, p)] + ImageNodes(c, p.containerImages), Pods.RebuiltPodEdges(c, s, p))
  {
    hide PodNode, ImageNodes, ImageEdges, Pods.RebuiltPodEdges, Mixed, PodEdges, PodMapsOf, Flat, Pods.SelectorF, Coherent, PodID, TypedEdge,
         KindTag, NodeKindName;
    var ns, images := [PodNode(c, p)] + ImageNodes(c, p.containerImages), ImageEdges(c, PodID(c, p), p.containerImages);
    PodPartsAreMixed(c, s, p);
    PodNodesAreCoherent(c, p);
    ImagesAndUsesMatch(c, PodID(c, p), p.containerImages);
    assert PodNode(c, p) in [PodNode(c, p)];
    ListsGrow([PodNode(c, p)], ImageNodes(c, p.containerImages));
    assert Lists([PodNode(c, p)], PodID(c, p), Pod);
    hide Lists;
    MixedIsUpsertable(ns, Pods.RebuiltPodEdges(c, s, p), PodEdges(PodMapsOf(c, s), PodID(c, p), p) + Flat(s.services, Pods.SelectorF(c, p)), images);
  }

  lemma WithPodIsOneUpsert(g: Graph, c: Text, s: Snapshot, p: KubePod)
    ensures Pods.WithPod(g, c, s, p) == g.WithAll([PodNode(c, p)] + ImageNodes(c, p.containerImages), Pods.RebuiltPodEdges(c, s, p))
  {
    hide PodNode, ImageNodes, Pods.RebuiltPodEdges;
    ToNodesAppend([PodNode(c, p)], ImageNodes(c, p.containerImages));
    assert [PodNode(c, p)][..0] == [];
    assert ToNodes([PodNode(c, p)]) == map[PodNode(c, p).id := PodNode(c, p)];
  }

  lemma PodUpdateKeeps(g: Graph, c: Text, s: Snapshot, namespace: Text, name: Text, change: ChangeType)
    requires Inv(g, {})
    ensures Inv(Pods.Reconciled(g, c, s, namespace, name, change), {})
  {
    hide Inv, Pods.PodsDeleted, Pods.ImagesReleased, Pods.Pruned, Pods.FindPod, Pods.WithPod, PodID, Upsertable;
    var found := Pods.FindPod(s.pods, namespace, name);
    var keep := if change == ChangeDelete || found.NoPod? then "" else PodID(c, found.pod);
    var released := Pods.ImagesReleased(g, namespace, name, keep);
    var cleared := Pods.PodsDeleted(g, namespace, name, keep);
    DeletionLoosens(g, namespace, name, keep);
    PruningTightens(cleared, released);
    if found.ThePod? && change == ChangeUpsert {
      PodIsUpsertable(c, s, found.pod);
      WithPodIsOneUpsert(cleared, c, s, found.pod);
      UpsertKeeps(cleared, [PodNode(c, found.pod)] + ImageNodes(c, found.pod.containerImages), Pods.RebuiltPodEdges(c, s, found.pod), released);
      PruningTightens(Pods.WithPod(cleared, c, s, found.pod), released);
    }
  }

  lemma PodNodesAreTyped(c: Text, pods: seq<KubePod>)
    ensures TypedPods(Flat(pods, PodNodeF(c)))
  {
    hide NotImage, PodID;
    IDsAreNotImages(c);
    FlatMembers(pods, PodNodeF(c));
  }

  /** What a rebuild lists besides uses of images. */
  ghost function RegularPart(c: Text, x: Inferred, s: Snapshot, storage: seq<Edge>, evidence: seq<Edge>): seq<Edge> {
    x.helmEdges + Flat(s.events, EventEdgesF(c, s)) + Flat(s.pods, PodEdgesF(c, s)) + Flat(s.roleBindings, RoleBindingEdgesF(c, s))
    + Flat(s.clusterRoleBindings, ClusterRoleBindingEdgesF(c, s)) + Flat(s.workloads, WorkloadEdgesF(c, s)) + x.controllerEdges
    + storage + Flat(s.services, ServiceEdgesF(c, s)) + evidence
  }

  lemma RegularPartIsRegular(c: Text, x: Inferred, s: Snapshot, storage: seq<Edge>, evidence: seq<Edge>)
    requires Regular(x.helmEdges) && Regular(x.controllerEdges) && Regular(storage) && Regular(evidence)
    ensures Regular(RegularPart(c, x, s, storage, evidence))
  {
    hide Regular, Flat, EventEdgesF, PodEdgesF, RoleBindingEdgesF, ClusterRoleBindingEdgesF, WorkloadEdgesF, ServiceEdgesF;
    var es := x.helmEdges;
    EventPassIsRegular(c, s);
    RegularAppend(es, Flat(s.events, EventEdgesF(c, s)));
    es := es + Flat(s.events, EventEdgesF(c, s));
    PodPassIsRegular(c, s);
    RegularAppend(es, Flat(s.pods, PodEdgesF(c, s)));
    es := es + Flat(s.pods, PodEdgesF(c, s));
    BindingPassesAreRegular(c, s);
    RegularAppend(es, Flat(s.roleBindings, RoleBindingEdgesF(c, s)));
    es := es + Flat(s.roleBindings, RoleBindingEdgesF(c, s));
    RegularAppend(es, Flat(s.clusterRoleBindings, ClusterRoleBindingEdgesF(c, s)));
    es := es + Flat(s.clusterRoleBindings, ClusterRoleBindingEdgesF(c, s));
    WorkloadPassIsRegular(c, s);
    RegularAppend(es, Flat(s.workloads, WorkloadEdgesF(c, s)));
    es := es + Flat(s.workloads, WorkloadEdgesF(c, s));
    RegularAppend(es, x.controllerEdges);
    es := es + x.controllerEdges;
    RegularAppend(es, storage);
    es := es + storage;
    ServicePassIsRegular(c, s);
    RegularAppend(es, Flat(s.services, ServiceEdgesF(c, s)));
    RegularAppend(es + Flat(s.services, ServiceEdgesF(c, s)), evidence);
  }

  lemma BuildEdgesRegrouped(c: Text, rules: seq<CSIRule>, x: Inferred, s: Snapshot, order: seq<string>, evidence: seq<Edge>)
    ensures var storage := StorageEdges(StorageMapsOf(c, rules, s), rules, s, PodsAmong(BuildNodes(c, rules, x, s)), order,
                                        BuildDriverNames(c, rules, x, s));
            BuildEdges(c, rules, x, s, order, evidence) == Flat(s.pods, ImageEdgesF(c)) + RegularPart(c, x, s, storage, evidence)
  {
    hide Flat, EventEdgesF, PodEdgesF, RoleBindingEdgesF, ClusterRoleBindingEdgesF, WorkloadEdgesF, ServiceEdgesF, ImageEdgesF,
         StorageEdges, StorageMapsOf, PodsAmong, BuildNodes, BuildDriverNames;
  }

  lemma BuildStorageIsRegular(c: Text, rules: seq<CSIRule>, x: Inferred, s: Snapshot, order: seq<string>)
    requires InferredShape(x)
    ensures Regular(StorageEdges(StorageMapsOf(c, rules, s), rules, s, PodsAmong(BuildNodes(c, rules, x, s)), order, BuildDriverNames(c, rules, x, s)))
  {
    hide StorageEdges, StorageMapsOf, PodsAmong, BuildNodes, BuildDriverNames, TypedStorageMaps, TypedPods, InferredShape, Regular, Flat;
    InfraPodsAreThePods(c, rules, x, s);
    PodNodesAreTyped(c, s.pods);
    StorageMapsAreTyped(c, rules, s);
    StorageIsRegular(StorageMapsOf(c, rules, s), rules, s, PodsAmong(BuildNodes(c, rules, x, s)), order, BuildDriverNames(c, rules, x, s));
  }

  lemma ConcatIsMixed(images: seq<Edge>, regular: seq<Edge>)
    requires Regular(regular) && forall e | e in images :: e.kind == UsesImage && TypedEdge(e.Triple())
    ensures Mixed(images + regular, regular, images)
  {
    hide Regular, TypedEdge;
  }

  lemma BuildIsMixed(c: Text, rules: seq<CSIRule>, x: Inferred, s: Snapshot, order: seq<string>, evidence: seq<Edge>) returns (regular: seq<Edge>)
    requires InferredShape(x) && Regular(x.helmEdges) && Regular(x.controllerEdges) && Events.IsSnapshotEvidence(evidence, c, s)
    ensures Mixed(BuildEdges(c, rules, x, s, order, evidence), regular, Flat(s.pods, ImageEdgesF(c)))
  {
    hide StorageEdges, StorageMapsOf, PodsAmong, BuildNodes, BuildDriverNames, BuildEdges, RegularPart, InferredShape, Regular, TypedEdge, Flat, Mixed;
    var storage := StorageEdges(StorageMapsOf(c, rules, s), rules, s, PodsAmong(BuildNodes(c, rules, x, s)), order, BuildDriverNames(c, rules, x, s));
    BuildStorageIsRegular(c, rules, x, s, order);
    SnapshotEvidenceIsRegular(evidence, c, s);
    RegularPartIsRegular(c, x, s, storage, evidence);
    BuildEdgesRegrouped(c, rules, x, s, order, evidence);
    ImagePassIsTyped(c, s.pods);
    regular := RegularPart(c, x, s, storage, evidence);
    ConcatIsMixed(Flat(s.pods, ImageEdgesF(c)), regular);
  }

  lemma ImagePassIsTyped(c: Text, pods: seq<KubePod>)
    ensures forall e | e in Flat(pods, ImageEdgesF(c)) :: e.kind == UsesImage && TypedEdge(e.Triple())
  {
    hide ImageEdges, TypedEdge, PodID;
    FlatMembers(pods, ImageEdgesF(c));
    forall p | p in pods { ImageEdgesAreTyped(c, p); }
  }

  /** Only the pod pass lists images. */
  lemma ImagesComeWithPods(c: Text, rules: seq<CSIRule>, x: Inferred, s: Snapshot, n: Node)
    requires InferredShape(x) && n in BuildNodes(c, rules, x, s) && n.kind == Image
    ensures n in Flat(s.pods, PodAndImagesF(c))
  {
    WorkingNodeKinds(c, s);
    PassiveNodeKinds(c, s);
    StorageNodeKinds(c, s);
    SyntheticNodeKinds(c, rules, ObservedDriverIDs(c, s.csiDrivers), s.storageClasses);
    hide Flat, IdentityNodes, ObservedStorageNodes, SyntheticNodes, ObservedDriverIDs, Coherent;
    assert n in NodesBeforeStorage(c, s) || n in IdentityNodes(c, s) || n in ObservedStorageNodes(c, s)
        || n in Flat(s.webhookConfigs, WebhookNodeF(c)) || n in x.helmNodes || n in Flat(s.events, EventNodeF(c))
        || n in SyntheticNodes(c, rules, ObservedDriverIDs(c, s.csiDrivers), s.storageClasses);
  }

  lemma PodPassIsBuilt(c: Text, rules: seq<CSIRule>, x: Inferred, s: Snapshot)
    ensures forall n | n in Flat(s.pods, PodAndImagesF(c)) :: n in BuildNodes(c, rules, x, s)
  {
    hide Flat, IdentityNodes, ObservedStorageNodes, SyntheticNodes, ObservedDriverIDs;
  }

  /** Over the pod pass, every image listed is used. */
  lemma PassUsesImages(c: Text, pods: seq<KubePod>)
    ensures forall n | n in Flat(pods, PodAndImagesF(c)) && n.kind == Image :: Uses(Flat(pods, ImageEdgesF(c)), n.id)
  {
    FlatMembers(pods, PodAndImagesF(c));
    FlatMembers(pods, ImageEdgesF(c));
    hide ImageNodes, ImageEdges, Flat, PodNode, PodID;
    forall n | n in Flat(pods, PodAndImagesF(c)) && n.kind == Image
      ensures Uses(Flat(pods, ImageEdgesF(c)), n.id)
    {
      var p :| p in pods && n in PodAndImagesF(c)(p);
      PodNodesAreCoherent(c, p);
      ImagesAndUsesMatch(c, PodID(c, p), p.containerImages);
      var e :| e in ImageEdges(c, PodID(c, p), p.containerImages) && e.kind == UsesImage && e.to == n.id;
      assert e in ImageEdgesF(c)(p);
    }
  }

  /** Over the pod pass, every use runs from a listed pod to a listed image. */
  lemma PassListsEnds(c: Text, pods: seq<KubePod>)
    ensures forall e | e in Flat(pods, ImageEdgesF(c)) ::
              Lists(Flat(pods, PodAndImagesF(c)), e.from, Pod) && Lists(Flat(pods, PodAndImagesF(c)), e.to, Image)
  {
    FlatMembers(pods, PodAndImagesF(c));
    FlatMembers(pods, ImageEdgesF(c));
    hide ImageNodes, ImageEdges, Flat, PodNode, PodID;
    var ns := Flat(pods, PodAndImagesF(c));
    forall e | e in Flat(pods, ImageEdgesF(c))
      ensures Lists(ns, e.from, Pod) && Lists(ns, e.to, Image)
    {
      var p :| p in pods && e in ImageEdgesF(c)(p);
      PodNodesAreCoherent(c, p);
      ImagesAndUsesMatch(c, PodID(c, p), p.containerImages);
      assert PodNode(c, p) in PodAndImagesF(c)(p);
      var n :| n in ImageNodes(c, p.containerImages) && n.id == e.to && n.kind == Image;
      assert n in PodAndImagesF(c)(p);
    }
  }

  lemma BuildIsUpsertable(c: Text, rules: seq<CSIRule>, x: Inferred, s: Snapshot, order: seq<string>, evidence: seq<Edge>)
    requires InferredShape(x) && Regular(x.helmEdges) && Regular(x.controllerEdges) && Events.IsSnapshotEvidence(evidence, c, s)
    ensures Upsertable(BuildNodes(c, rules, x, s), BuildEdges(c, rules, x, s, order, evidence))
  {
    hide BuildNodes, BuildEdges, Mixed, Regular, Flat, Coherent, Events.IsSnapshotEvidence, NodesIn, EdgesIn, SR.NamedDriver, Uses;
    var ns := BuildNodes(c, rules, x, s);
    var regular := BuildIsMixed(c, rules, x, s, order, evidence);
    SR.BuildNodesAreNamed(c, rules, x, s);
    PassUsesImages(c, s.pods);
    PassListsEnds(c, s.pods);
    PodPassIsBuilt(c, rules, x, s);
    forall n | n in ns && n.kind == Image { ImagesComeWithPods(c, rules, x, s, n); }
    forall id, kind | Lists(Flat(s.pods, PodAndImagesF(c)), id, kind)
      ensures Lists(ns, id, kind)
    {
    }
    hide Lists;
    MixedIsUpsertable(ns, BuildEdges(c, rules, x, s, order, evidence), regular, Flat(s.pods, ImageEdgesF(c)));
  }

  lemma BootstrapKeeps(c: Text, rules: seq<CSIRule>, x: Inferred, s: Snapshot, order: seq<string>, evidence: seq<Edge>)
    requires InferredShape(x) && Regular(x.helmEdges) && Regular(x.controllerEdges) && Events.IsSnapshotEvidence(evidence, c, s)
    ensures Inv(Rebuilt(c, rules, x, s, order, evidence), {})
  {
    EmptyIsFine();
    hide Inv, BuildNodes, BuildEdges, Upsertable, Regular;
    BuildIsUpsertable(c, rules, x, s, order, evidence);
    UpsertKeeps(EMPTY_GRAPH, BuildNodes(c, rules, x, s), BuildEdges(c, rules, x, s, order, evidence), {});
  }

  // ---- The other updates ----

  lemma ListedKindsAreRight(g: Graph, doomed: Node -> bool, kinds: set<NodeKind>)
    requires forall n | doomed(n) :: n.kind in kinds
    ensures forall id | id in Doomed(g, doomed) :: id in g.nodes && g.nodes[id].kind in kinds
  {
  }

  lemma StorageClears(g: Graph, m: StorageMaps)
    requires Inv(g, {})
    ensures Inv(Storage.Cleared(g, m), {})
  {
    hide Inv, Storage.CurrentIDs;
    DropEdgesKeeps(g, Storage.StorageKey(), {}, {});
    var kept := g.WithoutEdges(Storage.StorageKey());
    var stale := Storage.StaleStorage(Storage.CurrentIDs(m));
    ListedKindsAreRight(kept, stale, SR.STORAGE_NODES);
    DropNodesKeeps(kept, Doomed(kept, stale), {});
  }

  lemma MountsAreRegular(c: Text, s: Snapshot, pvcs: map<string, CanonicalID>)
    requires NoImages(pvcs.Values)
    ensures Regular(Flat(s.pods, Storage.MountF(c, pvcs)))
  {
    hide NotImage, RefEdges, PodID, Regular, NoImages;
    IDsAreNotImages(c);
    forall p | p in s.pods
      ensures Regular(Storage.MountF(c, pvcs)(p))
    {
      RefsAreRegular(PodID(c, p), MountsPVC, p.meta.namespace, p.pvcRefs, pvcs);
    }
    RegularFlat(s.pods, Storage.MountF(c, pvcs));
  }

  lemma StorageUpsertsAreRegular(c: Text, rules: seq<CSIRule>, s: Snapshot, order: seq<string>, names: map<string, string>)
    ensures Regular(Storage.RebuiltStorageEdges(c, rules, s, StorageMapsOf(c, rules, s), order, names))
  {
    hide Regular, StorageMapsOf, StorageEdges, Flat, TypedPods, NoImages;
    var m := StorageMapsOf(c, rules, s);
    StorageMapsAreTyped(c, rules, s);
    MountsAreRegular(c, s, m.pvcs);
    PodNodesAreTyped(c, s.pods);
    StorageIsRegular(m, rules, s, Flat(s.pods, PodNodeF(c)), order, names);
    RegularAppend(Flat(s.pods, Storage.MountF(c, m.pvcs)), StorageEdges(m, rules, s, Flat(s.pods, PodNodeF(c)), order, names));
  }

  lemma StorageUpdateKeeps(g: Graph, c: Text, rules: seq<CSIRule>, s: Snapshot, order: seq<string>)
    requires Inv(g, {})
    ensures Inv(Storage.Reconciled(g, c, rules, s, order), {})
  {
    hide Inv, StorageMapsOf, Storage.Cleared, Storage.StorageNodes, Storage.RebuiltStorageEdges, Storage.KernelDriverNames, ToNodes, ToEdges,
         NodesIn, Regular, SR.NamedDriver, Upsertable;
    var m := StorageMapsOf(c, rules, s);
    var cleared := Storage.Cleared(g, m);
    var nodes := cleared.nodes + ToNodes(Storage.StorageNodes(c, rules, s));
    var names := Storage.KernelDriverNames(m.drivers, nodes);
    StorageClears(g, m);
    SR.StorageNodesAreNamed(c, rules, s);
    StorageUpsertsAreRegular(c, rules, s, order, names);
    RegularIsUpsertable(Storage.StorageNodes(c, rules, s), SR.STORAGE_NODES, Storage.RebuiltStorageEdges(c, rules, s, m, order, names));
    UpsertKeeps(cleared, Storage.StorageNodes(c, rules, s), Storage.RebuiltStorageEdges(c, rules, s, m, order, names), {});
  }

  lemma IdentityClears(g: Graph, c: Text, s: Snapshot)
    requires Inv(g, {})
    ensures Inv(Identities.Cleared(g, c, s), {})
  {
    hide Inv, Identities.CurrentIDs;
    DropEdgesKeeps(g, Identities.IdentityKey(), {}, {});
    var kept := g.WithoutEdges(Identities.IdentityKey());
    var stale := Identities.StaleIdentity(Identities.CurrentIDs(c, s));
    ListedKindsAreRight(kept, stale, Identities.IDENTITY_NODES);
    DropNodesKeeps(kept, Doomed(kept, stale), {});
  }

  lemma AccountsAreRegular(c: Text, s: Snapshot)
    ensures Regular(Flat(s.pods, Identities.AccountF(c, ServiceAccountIDs(c, s.serviceAccounts))))
  {
    hide NotImage, PodID, Regular, ServiceAccountID, Index, NsName;
    IDsAreNotImages(c);
    PassiveIDsAreNotImages(c);
    var accounts := ServiceAccountIDs(c, s.serviceAccounts);
    IndexNoImages(s.serviceAccounts, NamedKeyF(), ServiceAccountIDF(c));
    forall p | p in s.pods
      ensures Regular(Identities.AccountF(c, accounts)(p))
    {
      RegularUnowned(Identities.AccountF(c, accounts)(p), {UsesServiceAccount});
    }
    RegularFlat(s.pods, Identities.AccountF(c, accounts));
  }

  lemma IdentityUpdateKeeps(g: Graph, c: Text, s: Snapshot)
    requires Inv(g, {})
    ensures Inv(Identities.Reconciled(g, c, s), {})
  {
    hide Inv, Identities.Cleared, IdentityNodes, Regular, NodesIn, Upsertable, Flat, Identities.AccountF, RoleBindingEdgesF,
         ClusterRoleBindingEdgesF, ServiceAccountIDs;
    IdentityClears(g, c, s);
    PassiveNodeKinds(c, s);
    AccountsAreRegular(c, s);
    BindingPassesAreRegular(c, s);
    var accounts := Flat(s.pods, Identities.AccountF(c, ServiceAccountIDs(c, s.serviceAccounts)));
    RegularAppend(accounts, Flat(s.roleBindings, RoleBindingEdgesF(c, s)));
    RegularAppend(accounts + Flat(s.roleBindings, RoleBindingEdgesF(c, s)), Flat(s.clusterRoleBindings, ClusterRoleBindingEdgesF(c, s)));
    RegularIsUpsertable(IdentityNodes(c, s), Identities.IDENTITY_NODES, Identities.IdentityEdges(c, s));
    UpsertKeeps(Identities.Cleared(g, c, s), IdentityNodes(c, s), Identities.IdentityEdges(c, s), {});
  }

  lemma WorkloadScopeIsBalanced(ids: set<CanonicalID>)
    ensures Balanced(Workloads.WorkloadScope(ids))
  {
  }

  lemma WorkloadsClear(g: Graph, namespace: Text, name: Text, keep: set<CanonicalID>)
    requires Inv(g, {})
    ensures Inv(Workloads.WorkloadsDeleted(g, namespace, name, keep), {})
  {
    hide Inv, Balanced;
    var stale := Workloads.StaleWorkload(namespace, name, keep);
    ListedKindsAreRight(g, stale, {Workload});
    DropNodesKeeps(g, Doomed(g, stale), {});
    WorkloadScopeIsBalanced(keep);
    DropEdgesKeeps(g.WithoutNodes(Doomed(g, stale)), Workloads.WorkloadScope(keep), {}, {});
  }

  lemma WorkloadNodesAreCoherent(c: Text, found: seq<KubeWorkload>)
    ensures NodesIn(Workloads.WorkloadNodes(c, found), {Workload})
  {
    hide ResourceID, KindTag, NodeKindName;
    FlatNodesIn(found, WorkloadNodeF(c), {Workload});
  }

  lemma OwnersOfPodAreRegular(c: Text, s: Snapshot, ids: set<CanonicalID>, p: KubePod)
    ensures Regular(Workloads.PodOwnersF(c, NewChainResolver(c, s.workloads, s.replicaSets), ids)(p))
  {
    hide Regular, NewChainResolver, ResolveReferences, PodID, OwnerEdges, TypedTargets, NotImage, Workloads.ContainsTarget;
    IDsAreNotImages(c);
    RegularNone();
    TargetsAreTyped(c, s, p.meta.namespace, p.ownerReferences);
    OwnerEdgesAreRegular(PodID(c, p), ResolveReferences(NewChainResolver(c, s.workloads, s.replicaSets), p.meta.namespace, p.ownerReferences));
  }

  lemma {:induction false} ScopedControlIsTyped(childID: CanonicalID, targets: seq<WorkloadTarget>, ids: set<CanonicalID>, all: set<CanonicalID>)
    requires NotImage(childID) && TypedTargets(targets)
    ensures forall e | e in Workloads.ScopedControl(childID, targets, ids, all) :: NotImage(e.from) && NotImage(e.to)
  {
    hide NotImage;
    if targets != [] {
      ScopedControlIsTyped(childID, targets[..|targets| - 1], ids, all);
    }
  }

  lemma ScopedControlIsRegular(childID: CanonicalID, targets: seq<WorkloadTarget>, ids: set<CanonicalID>, all: set<CanonicalID>)
    requires NotImage(childID) && TypedTargets(targets)
    ensures Regular(Workloads.ScopedControl(childID, targets, ids, all))
  {
    hide NotImage, Workloads.ScopedControl;
    ScopedControlIsTyped(childID, targets, ids, all);
    RegularUnowned(Workloads.ScopedControl(childID, targets, ids, all), {ControlledBy});
  }

  lemma OwnershipIsRegular(c: Text, s: Snapshot, ids: set<CanonicalID>)
    ensures Regular(Workloads.OwnershipEdges(c, s, ids))
  {
    hide Regular, NewChainResolver, ResolveReferences, WorkloadID, Workloads.ScopedControl, Workloads.PodOwnersF, Workloads.WorkloadIDSet,
         NotImage, TypedTargets, Flat;
    var r, all := NewChainResolver(c, s.workloads, s.replicaSets), Workloads.WorkloadIDSet(c, s.workloads);
    IDsAreNotImages(c);
    forall p | p in s.pods { OwnersOfPodAreRegular(c, s, ids, p); }
    RegularFlat(s.pods, Workloads.PodOwnersF(c, r, ids));
    forall w | w in s.workloads
      ensures Regular(Workloads.ControlF(c, r, ids, all)(w))
    {
      TargetsAreTyped(c, s, w.meta.namespace, w.ownerReferences);
      ScopedControlIsRegular(WorkloadID(c, w), ResolveReferences(r, w.meta.namespace, w.ownerReferences), ids, all);
    }
    RegularFlat(s.workloads, Workloads.ControlF(c, r, ids, all));
    RegularAppend(Flat(s.pods, Workloads.PodOwnersF(c, r, ids)), Flat(s.workloads, Workloads.ControlF(c, r, ids, all)));
  }

  lemma {:induction false} ScopedTargetsAreTyped(c: Text, workloads: seq<KubeWorkload>, ids: set<CanonicalID>)
    ensures TypedTargets(Workloads.TargetsIn(c, workloads, ids))
  {
    hide NotImage, WorkloadID;
    IDsAreNotImages(c);
    if workloads != [] {
      ScopedTargetsAreTyped(c, workloads[..|workloads| - 1], ids);
    }
  }

  lemma ReportsAreRegular(c: Text, e: KubeEvent, nodes: NodeMap, targets: seq<WorkloadTarget>)
    requires TypedTargets(targets)
    ensures Regular(Workloads.ReportsF(c, nodes, targets)(e))
  {
    hide NotImage, EventID, Regular, Flat;
    IDsAreNotImages(c);
    RegularNone();
    forall t | t in targets
      ensures Regular(Workloads.ReportF(c, e)(t))
    {
      RegularUnowned(Workloads.ReportF(c, e)(t), {ReportedByEvent});
    }
    RegularFlat(targets, Workloads.ReportF(c, e));
  }

  lemma BlockedTargetsAreTyped(events: seq<KubeEvent>, targets: seq<WorkloadTarget>)
    requires TypedTargets(targets)
    ensures forall id | id in Flat(events, Workloads.BlockedF(targets)) :: NotImage(id)
  {
    hide NotImage, Workloads.IsBlocking;
    FlatMembers(events, Workloads.BlockedF(targets));
    forall e { FlatMembers(targets, Workloads.BlockF(e)); }
  }

  lemma WorkloadUpsertsAreRegular(c: Text, s: Snapshot, ids: set<CanonicalID>, nodes: NodeMap, evidence: seq<Edge>)
    requires Workloads.IsWorkloadEvidence(evidence, c, s, ids, nodes)
    ensures Regular(Workloads.RebuiltWorkloadEdges(c, s, ids, nodes, evidence))
  {
    hide Regular, Workloads.OwnershipEdges, Workloads.TargetsIn, Flat, TypedTargets, NotImage, IsEvidence, WebhookIDs, Workloads.BlockedF,
         Workloads.ReportsF;
    var targets := Workloads.TargetsIn(c, s.workloads, ids);
    ScopedTargetsAreTyped(c, s.workloads, ids);
    OwnershipIsRegular(c, s, ids);
    forall e | e in s.events { ReportsAreRegular(c, e, nodes, targets); }
    RegularFlat(s.events, Workloads.ReportsF(c, nodes, targets));
    WebhooksAreTyped(c, s);
    BlockedTargetsAreTyped(s.events, targets);
    EvidenceIsRegular(evidence, Flat(s.events, Workloads.BlockedF(targets)), WebhookIDs(c, s.webhookConfigs).Values * nodes.Keys);
    RegularAppend(Workloads.OwnershipEdges(c, s, ids), Flat(s.events, Workloads.ReportsF(c, nodes, targets)));
    RegularAppend(Workloads.OwnershipEdges(c, s, ids) + Flat(s.events, Workloads.ReportsF(c, nodes, targets)), evidence);
  }

  lemma PreparingKeeps(g: Graph, c: Text, s: Snapshot, namespace: Text, name: Text, change: ChangeType)
    requires Inv(g, {})
    ensures Inv(Workloads.Prepared(g, c, s, namespace, name, change), {})
  {
    hide Inv, Workloads.WorkloadsDeleted, Workloads.WorkloadNodes, Workloads.WorkloadIDSet, Workloads.Kept, Regular, NodesIn, Upsertable;
    var found := Workloads.Kept(c, s, namespace, name, change);
    var cleared := Workloads.WorkloadsDeleted(g, namespace, name, Workloads.WorkloadIDSet(c, found));
    WorkloadsClear(g, namespace, name, Workloads.WorkloadIDSet(c, found));
    WorkloadNodesAreCoherent(c, found);
    RegularNone();
    RegularIsUpsertable(Workloads.WorkloadNodes(c, found), {Workload}, []);
    UpsertKeeps(cleared, Workloads.WorkloadNodes(c, found), [], {});
  }

  lemma RegularEdgesKeep(g: Graph, es: seq<Edge>)
    requires Inv(g, {}) && Regular(es)
    ensures Inv(g.WithAll([], es), {})
  {
    hide Inv, Regular, Upsertable;
    assert NodesIn([], {});
    RegularIsUpsertable([], {}, es);
    UpsertKeeps(g, [], es, {});
  }

  lemma WorkloadUpdateKeeps(g: Graph, c: Text, s: Snapshot, namespace: Text, name: Text, change: ChangeType, evidence: seq<Edge>)
    requires Inv(g, {})
    requires namespace != "" && name != "" && Workloads.Kept(c, s, namespace, name, change) != [] ==>
               Workloads.IsWorkloadEvidence(evidence, c, s, Workloads.WorkloadIDSet(c, Workloads.Kept(c, s, namespace, name, change)),
                                            Workloads.Prepared(g, c, s, namespace, name, change).nodes)
    ensures Inv(Workloads.Reconciled(g, c, s, namespace, name, change, evidence), {})
  {
    hide Inv, Workloads.Prepared, Workloads.WorkloadIDSet, Workloads.Kept, Workloads.IsWorkloadEvidence, Workloads.RebuiltWorkloadEdges, Regular;
    var found, prepared := Workloads.Kept(c, s, namespace, name, change), Workloads.Prepared(g, c, s, namespace, name, change);
    PreparingKeeps(g, c, s, namespace, name, change);
    if namespace != "" && name != "" && found != [] {
      WorkloadUpsertsAreRegular(c, s, Workloads.WorkloadIDSet(c, found), prepared.nodes, evidence);
      RegularEdgesKeep(prepared, Workloads.RebuiltWorkloadEdges(c, s, Workloads.WorkloadIDSet(c, found), prepared.nodes, evidence));
    }
  }

  lemma SelectedAreRegular(c: Text, v: KubeService, pods: seq<KubePod>)
    ensures Regular(Flat(pods, Services.SelectedF(c, v)))
  {
    hide NotImage, LabelsMatch, PodID, ServiceID, Flat;
    IDsAreNotImages(c);
    forall p | p in pods
      ensures Regular(Services.SelectedF(c, v)(p))
    {
      RegularUnowned(Services.SelectedF(c, v)(p), {SelectsPod});
    }
    hide Regular;
    RegularFlat(pods, Services.SelectedF(c, v));
  }

  /** One node of a kind other than an image. */
  lemma NodeKeeps(g: Graph, n: Node)
    requires Inv(g, {}) && Coherent(n) && n.kind != Image
    ensures Inv(g.WithNode(n), {})
  {
    hide Inv, Regular, Upsertable, Coherent;
    RegularNone();
    RegularIsUpsertable([n], {n.kind}, []);
    UpsertKeeps(g, [n], [], {});
    OneNode(g, n);
  }

  lemma OneNode(g: Graph, n: Node)
    ensures g.WithAll([n], []) == g.WithNode(n)
  {
    assert [n][..0] == [];
    assert ToNodes([n]) == map[n.id := n];
    assert g.nodes + map[n.id := n] == g.nodes[n.id := n] && g.edges + map[] == g.edges;
  }

  lemma ServiceNodeIsCoherent(c: Text, v: KubeService)
    ensures Coherent(ServiceNode(c, v)) && ServiceNode(c, v).kind == Service
  {
  }

  lemma EventNodeIsCoherent(c: Text, e: KubeEvent)
    ensures Coherent(EventNode(c, e)) && EventNode(c, e).kind == Event
  {
  }

  lemma ServiceUpdateKeeps(g: Graph, c: Text, s: Snapshot, namespace: Text, name: Text, change: ChangeType)
    requires Inv(g, {})
    ensures Inv(Services.Reconciled(g, c, s, namespace, name, change), {})
  {
    hide Inv, Services.FindService, Flat, Services.SelectedF, ServiceNode, ServiceID, Regular, Coherent, Graph.WithNode, Graph.WithAll;
    var found := Services.FindService(s.services, namespace, name);
    ListedKindsAreRight(g, Services.NamedService(namespace, name), {Service});
    DropNodesKeeps(g, Doomed(g, Services.NamedService(namespace, name)), {});
    if found.TheService? {
      var v := found.service;
      ServiceNodeIsCoherent(c, v);
      NodeKeeps(g, ServiceNode(c, v));
      DropEdgesKeeps(g.WithNode(ServiceNode(c, v)), Services.SelectedBy(ServiceID(c, v)), {}, {});
      SelectedAreRegular(c, v, s.pods);
      RegularEdgesKeep(g.WithNode(ServiceNode(c, v)).WithoutEdges(Services.SelectedBy(ServiceID(c, v))), Flat(s.pods, Services.SelectedF(c, v)));
    }
  }

  lemma EventsClear(g: Graph, namespace: Text, name: Text)
    requires Inv(g, {})
    ensures Inv(Events.Cleared(g, namespace, name), {})
  {
    hide Inv;
    ListedKindsAreRight(g, Events.NamedEvent(namespace, name), {Event});
    DropNodesKeeps(g, Doomed(g, Events.NamedEvent(namespace, name)), {});
    DropEdgesKeeps(g.WithoutNodes(Doomed(g, Events.NamedEvent(namespace, name))), Events.EvidenceKey(), {}, {});
  }

  lemma EventUpdateKeeps(g: Graph, c: Text, s: Snapshot, namespace: Text, name: Text, change: ChangeType, evidence: seq<Edge>)
    requires Inv(g, {}) && (namespace != "" && name != "" ==> Events.IsSnapshotEvidence(evidence, c, s))
    ensures Inv(Events.Reconciled(g, c, s, namespace, name, change, evidence), {})
  {
    hide Inv, Events.Cleared, Events.FindEvent, EventNode, EventEdges, EventTargets, Regular, Coherent, Graph.WithNode, Graph.WithAll,
         IsEvidence, BlockedWorkloads, WorkloadIDs, WebhookIDs;
    var found, cleared := Events.FindEvent(s.events, namespace, name), Events.Cleared(g, namespace, name);
    EventsClear(g, namespace, name);
    if namespace != "" && name != "" {
      SnapshotEvidenceIsRegular(evidence, c, s);
      RegularEdgesKeep(cleared, evidence);
      if found.TheEvent? {
        EventNodeIsCoherent(c, found.event);
        NodeKeeps(cleared, EventNode(c, found.event));
        ReportIsRegular(c, s, found.event);
        RegularEdgesKeep(cleared.WithNode(EventNode(c, found.event)), EventEdges(c, EventTargets(c, s), found.event));
        RegularEdgesKeep(Events.WithEvent(cleared, c, s, found.event), evidence);
      }
    }
  }

  lemma ControllersKeep(g: Graph, inferred: seq<Edge>)
    requires Inv(g, {}) && Regular(inferred)
    ensures Inv(Controllers.Reconciled(g, inferred), {})
  {
    hide Inv, Regular, Graph.WithAll;
    DropEdgesKeeps(g, Controllers.ControllerKey(), {}, {});
    RegularEdgesKeep(g.WithoutEdges(Controllers.ControllerKey()), inferred);
  }

  // ---- What each step does, one by one ----

  lemma AfterStorage(cfg: Config, g: Graph, s: Snapshot, order: seq<string>)
    requires IsEnumeration(order, CSIDriverIDs(cfg.cluster, cfg.rules, s))
    ensures Allowed(cfg, g, StorageStep(s, order))
    ensures After(cfg, g, StorageStep(s, order)) == Storage.Reconciled(g, cfg.cluster, cfg.rules, s, order)
  {
    hide Storage.Reconciled, IsEnumeration, CSIDriverIDs;
  }

  lemma AfterIdentity(cfg: Config, g: Graph, s: Snapshot)
    ensures Allowed(cfg, g, IdentityStep(s))
    ensures After(cfg, g, IdentityStep(s)) == Identities.Reconciled(g, cfg.cluster, s)
  {
    hide Identities.Reconciled;
  }

  lemma AfterService(cfg: Config, g: Graph, s: Snapshot, namespace: Text, name: Text, change: ChangeType)
    ensures Allowed(cfg, g, ServiceStep(s, namespace, name, change))
    ensures After(cfg, g, ServiceStep(s, namespace, name, change)) == Services.Reconciled(g, cfg.cluster, s, namespace, name, change)
  {
    hide Services.Reconciled;
  }

  lemma AfterEvent(cfg: Config, g: Graph, s: Snapshot, namespace: Text, name: Text, change: ChangeType, evidence: seq<Edge>)
    requires namespace != "" && name != "" ==> Events.IsSnapshotEvidence(evidence, cfg.cluster, s)
    ensures Allowed(cfg, g, EventStep(s, namespace, name, change, evidence))
    ensures After(cfg, g, EventStep(s, namespace, name, change, evidence)) ==
            Events.Reconciled(g, cfg.cluster, s, namespace, name, change, evidence)
  {
    hide Events.Reconciled, Events.IsSnapshotEvidence;
  }

  lemma AfterPod(cfg: Config, g: Graph, s: Snapshot, namespace: Text, name: Text, change: ChangeType)
    ensures Allowed(cfg, g, PodStep(s, namespace, name, change))
    ensures After(cfg, g, PodStep(s, namespace, name, change)) ==
            Controllers.Reconciled(Pods.Reconciled(g, cfg.cluster, s, namespace, name, change), cfg.infer(s).controllerEdges)
  {
    hide Pods.Reconciled, Controllers.Reconciled;
  }

  lemma AfterWorkload(cfg: Config, g: Graph, s: Snapshot, namespace: Text, name: Text, change: ChangeType, evidence: seq<Edge>)
    requires namespace != "" && name != "" && Workloads.Kept(cfg.cluster, s, namespace, name, change) != [] ==>
               Workloads.IsWorkloadEvidence(evidence, cfg.cluster, s,
                                            Workloads.WorkloadIDSet(cfg.cluster, Workloads.Kept(cfg.cluster, s, namespace, name, change)),
                                            Workloads.Prepared(g, cfg.cluster, s, namespace, name, change).nodes)
    ensures Allowed(cfg, g, WorkloadStep(s, namespace, name, change, evidence))
    ensures After(cfg, g, WorkloadStep(s, namespace, name, change, evidence)) ==
            Controllers.Reconciled(Workloads.Reconciled(g, cfg.cluster, s, namespace, name, change, evidence), cfg.infer(s).controllerEdges)
  {
    hide Workloads.Reconciled, Controllers.Reconciled, Workloads.IsWorkloadEvidence, Workloads.Kept, Workloads.Prepared, Workloads.WorkloadIDSet;
  }

  lemma AfterBootstrap(cfg: Config, s: Snapshot, order: seq<string>, evidence: seq<Edge>)
    requires IsEnumeration(order, CSIDriverIDs(cfg.cluster, cfg.rules, s))
    requires Events.IsSnapshotEvidence(evidence, cfg.cluster, s)
    ensures forall g :: Allowed(cfg, g, Bootstrap(s, order, evidence))
    ensures forall g :: After(cfg, g, Bootstrap(s, order, evidence)) ==
                        EMPTY_GRAPH.WithAll(BuildNodes(cfg.cluster, cfg.rules, cfg.infer(s), s),
                                            BuildEdges(cfg.cluster, cfg.rules, cfg.infer(s), s, order, evidence))
  {
    hide Events.IsSnapshotEvidence, BuildNodes, BuildEdges, IsEnumeration, CSIDriverIDs;
  }

  /** Every step keeps the invariant. */
  lemma StepKeeps(cfg: Config, g: Graph, step: Step)
    requires InfersWell(cfg) && Inv(g, {}) && Allowed(cfg, g, step)
    ensures Inv(After(cfg, g, step), {})
  {
    hide Inv, Rebuilt, Storage.Reconciled, Identities.Reconciled, Pods.Reconciled, Workloads.Reconciled, Services.Reconciled, Events.Reconciled,
         Controllers.Reconciled, Events.IsSnapshotEvidence, IsEnumeration, CSIDriverIDs, Workloads.IsWorkloadEvidence, Regular, InferredShape, Workloads.Kept,
         Workloads.Prepared, Workloads.WorkloadIDSet;
    var c, x := cfg.cluster, cfg.infer(step.snapshot);
    match step
    case Bootstrap(s, order, evidence) => BootstrapKeeps(c, cfg.rules, x, s, order, evidence);
    case StorageStep(s, order) => StorageUpdateKeeps(g, c, cfg.rules, s, order);
    case IdentityStep(s) => IdentityUpdateKeeps(g, c, s);
    case PodStep(s, namespace, name, change) =>
      PodUpdateKeeps(g, c, s, namespace, name, change);
      ControllersKeep(Pods.Reconciled(g, c, s, namespace, name, change), x.controllerEdges);
    case WorkloadStep(s, namespace, name, change, evidence) =>
      WorkloadUpdateKeeps(g, c, s, namespace, name, change, evidence);
      ControllersKeep(Workloads.Reconciled(g, c, s, namespace, name, change, evidence), x.controllerEdges);
    case ServiceStep(s, namespace, name, change) => ServiceUpdateKeeps(g, c, s, namespace, name, change);
    case EventStep(s, namespace, name, change, evidence) => EventUpdateKeeps(g, c, s, namespace, name, change, evidence);
  }

  lemma {:induction false} RunKeeps(cfg: Config, steps: seq<Step>)
    requires InfersWell(cfg) && IsRun(cfg, steps)
    ensures Inv(Run(cfg, steps), {})
  {
    hide Inv, After, Allowed;
    if steps == [] {
      EmptyIsFine();
    } else {
      RunKeeps(cfg, steps[..|steps| - 1]);
      StepKeeps(cfg, Run(cfg, steps[..|steps| - 1]), steps[|steps| - 1]);
    }
  }

  /** Over every run managed_by(p, w) is stored exactly when owns_pod(w, p) is. */
  lemma OwnershipStaysPaired(cfg: Config, steps: seq<Step>, p: CanonicalID, w: CanonicalID)
    requires InfersWell(cfg) && IsRun(cfg, steps)
    ensures EdgeKey(p, ManagedBy, w) in Run(cfg, steps).edges <==> EdgeKey(w, OwnsPod, p) in Run(cfg, steps).edges
  {
    hide IsRun, InfersWell;
    RunKeeps(cfg, steps);
    hide Run;
  }

  /** Over every run an image is stored exactly while some stored pod uses it: no unused image lingers, none in use is pruned. */
  lemma ImagesAreStoredWhileUsed(cfg: Config, steps: seq<Step>, image: CanonicalID)
    requires InfersWell(cfg) && IsRun(cfg, steps)
    ensures var g := Run(cfg, steps);
            Stored(g, image, Image) <==> exists p :: EdgeKey(p, UsesImage, image) in g.edges && Stored(g, p, Pod)
  {
    hide IsRun, InfersWell;
    RunKeeps(cfg, steps);
    hide Run, Typed, PairedKeys;
    var g := Run(cfg, steps);
    if Stored(g, image, Image) {
      var p :| EdgeKey(p, UsesImage, image) in g.edges;
      assert Stored(g, EdgeKey(p, UsesImage, image).from, Pod);
    }
    if p :| EdgeKey(p, UsesImage, image) in g.edges && Stored(g, p, Pod) {
      assert Stored(g, EdgeKey(p, UsesImage, image).to, Image);
    }
  }

  /** Over every run nothing but pods' uses ever touches an image. */
  lemma OnlyUsesTouchImages(cfg: Config, steps: seq<Step>, k: EdgeKey, image: CanonicalID)
    requires InfersWell(cfg) && IsRun(cfg, steps)
    requires k in Run(cfg, steps).edges && Stored(Run(cfg, steps), image, Image) && TouchesKey(k, image)
    ensures k.kind == UsesImage && k.to == image && Stored(Run(cfg, steps), k.from, Pod)
  {
    hide IsRun, InfersWell;
    RunKeeps(cfg, steps);
    hide Run, PairedKeys;
    var g := Run(cfg, steps);
    assert Coherent(g.nodes[image]) && TypedEdge(k);
    if k.kind == UsesImage { PodsAreNotImages(k.from, k.to); }
  }
}
