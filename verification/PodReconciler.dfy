/** Incremental update of one pod: its node, its images and the nine kinds of edges scoped to it. */
module PodReconciler {
  import opened Identity
  import opened GraphModel
  import opened Resources
  import opened OwnerChain
  import opened Builder
  import opened Kernel
  import opened KernelLoops
  import opened Changes

  datatype PodApplyResult = PodApplyResult(applied: bool, deleted: bool, upsertedEdges: nat, deletedEdges: nat, deletedImages: nat)

  datatype FoundPod = ThePod(pod: KubePod) | NoPod

  function FindPod(pods: seq<KubePod>, namespace: Text, name: Text): FoundPod {
    if pods == [] then NoPod
    else if pods[0].meta.namespace == namespace && pods[0].meta.name == name then ThePod(pods[0])
    else FindPod(pods[1..], namespace, name)
  }

  lemma {:induction false} FindPodFinds(pods: seq<KubePod>, namespace: Text, name: Text)
    ensures FindPod(pods, namespace, name).NoPod? <==> forall p | p in pods :: !(p.meta.namespace == namespace && p.meta.name == name)
    ensures FindPod(pods, namespace, name).ThePod? ==>
      var p := FindPod(pods, namespace, name).pod; p in pods && p.meta.namespace == namespace && p.meta.name == name
  {
    if pods != [] {
      FindPodFinds(pods[1..], namespace, name);
      assert pods == [pods[0]] + pods[1..];
    }
  }

  predicate IsPodScopedEdge(k: EdgeKey, podID: CanonicalID) {
    match k.kind
    case ScheduledOn => k.from == podID
    case UsesConfigMap => k.from == podID
    case UsesSecret => k.from == podID
    case UsesServiceAccount => k.from == podID
    case MountsPVC => k.from == podID
    case UsesImage => k.from == podID
    case ManagedBy => k.from == podID
    case OwnsPod => k.to == podID
    case SelectsPod => k.to == podID
    case _ => false
  }

  function PodScope(podID: CanonicalID): EdgeKey -> bool { (k: EdgeKey) => IsPodScopedEdge(k, podID) }

  function AtNode(id: CanonicalID): EdgeKey -> bool { (k: EdgeKey) => TouchesKey(k, id) }

  function StalePod(namespace: Text, name: Text, keep: CanonicalID): Node -> bool {
    (n: Node) => n.kind == Pod && n.namespace == namespace && n.name == name && n.id != keep
  }

  /** Services that select the pod, under their own identifiers. */
  function SelectorF(c: Text, p: KubePod): KubeService -> seq<Edge> {
    (v: KubeService) =>
      if v.meta.namespace == p.meta.namespace && LabelsMatch(v.selector, p.meta.labels)
      then [NewEdge(ServiceID(c, v), PodID(c, p), SelectsPod)] else []
  }

  /** Everything an update upserts around the pod, in the order of the source. */
  function RebuiltPodEdges(c: Text, s: Snapshot, p: KubePod): seq<Edge> {
    var m, id := PodMapsOf(c, s), PodID(c, p);
    ScheduledEdges(id, p, m.nodes) + ImageEdges(c, id, p.containerImages)
    + RefEdges(id, UsesConfigMap, p.meta.namespace, p.configMapRefs, m.configMaps)
    + RefEdges(id, UsesSecret, p.meta.namespace, p.secretRefs, m.secrets)
    + RefEdges(id, MountsPVC, p.meta.namespace, p.pvcRefs, m.pvcs)
    + ServiceAccountEdges(id, p, m.accounts)
    + OwnerEdges(id, PodTargets(m, p))
    + Flat(s.services, SelectorF(c, p))
  }

  /** The identifiers the edges of `doomed` use as images of the pod. */
  ghost function ImagesAmong(g: Graph, podIDs: set<CanonicalID>): set<CanonicalID> {
    set k | k in g.edges && k.kind == UsesImage && k.from in podIDs :: k.to
  }

  ghost predicate IsOrphanImage(g: Graph, id: CanonicalID) {
    id in g.nodes && g.nodes[id].kind == Image && forall k | k in g.edges :: !TouchesKey(k, id)
  }

  ghost function Orphans(g: Graph, ids: set<CanonicalID>): set<CanonicalID> {
    set id | id in ids && IsOrphanImage(g, id)
  }

  ghost function Pruned(g: Graph, ids: set<CanonicalID>): Graph {
    g.WithoutNodes(Orphans(g, ids))
  }

  ghost function StaleIDs(g: Graph, namespace: Text, name: Text, keep: CanonicalID): set<CanonicalID> {
    Doomed(g, StalePod(namespace, name, keep))
  }

  /** The graph once stale pods of the name and the scoped edges of the kept one are gone. */
  ghost function PodsDeleted(g: Graph, namespace: Text, name: Text, keep: CanonicalID): Graph {
    var kept := g.WithoutNodes(StaleIDs(g, namespace, name, keep));
    if keep == "" then kept else kept.WithoutEdges(PodScope(keep))
  }

  ghost function ImagesReleased(g: Graph, namespace: Text, name: Text, keep: CanonicalID): set<CanonicalID> {
    var stale := StaleIDs(g, namespace, name, keep);
    ImagesAmong(g, stale) + if keep == "" then {} else ImagesAmong(g.WithoutNodes(stale), {keep})
  }

  ghost function WithPod(g: Graph, c: Text, s: Snapshot, p: KubePod): Graph {
    g.WithNode(PodNode(c, p)).WithAll(ImageNodes(c, p.containerImages), RebuiltPodEdges(c, s, p))
  }

  /** The identifier an update keeps: that of the pod it finds, or none. */
  function KeptID(c: Text, s: Snapshot, namespace: Text, name: Text, change: ChangeType): CanonicalID {
    match FindPod(s.pods, namespace, name)
    case NoPod => ""
    case ThePod(p) => if change == ChangeDelete then "" else PodID(c, p)
  }

  /** The graph when all is written and only unused images are left to prune. */
  ghost function Unpruned(g: Graph, c: Text, s: Snapshot, namespace: Text, name: Text, change: ChangeType): Graph {
    var found := FindPod(s.pods, namespace, name);
    if change == ChangeDelete || found.NoPod? then PodsDeleted(g, namespace, name, "")
    else WithPod(PodsDeleted(g, namespace, name, PodID(c, found.pod)), c, s, found.pod)
  }

  /** The graph after an update of the named pod. */
  ghost function Reconciled(g: Graph, c: Text, s: Snapshot, namespace: Text, name: Text, change: ChangeType): Graph {
    var found := FindPod(s.pods, namespace, name);
    if namespace == "" || name == "" then g
    else if change == ChangeDelete || found.NoPod? then
      Pruned(PodsDeleted(g, namespace, name, ""), ImagesReleased(g, namespace, name, ""))
    else
      var id := PodID(c, found.pod);
      Pruned(WithPod(PodsDeleted(g, namespace, name, id), c, s, found.pod), ImagesReleased(g, namespace, name, id))
  }

  // ---- The update as the source runs it ----

  ghost predicate Collected(images: seq<CanonicalID>, ids: set<CanonicalID>) {
    forall id :: id in images <==> id in ids
  }

  ghost function SeenImages(seen: seq<Edge>, podID: CanonicalID): set<CanonicalID> {
    set e | e in seen && e.kind == UsesImage && e.from == podID :: e.to
  }

  lemma SeenImagesStep(seen: seq<Edge>, edge: Edge, podID: CanonicalID)
    ensures SeenImages(seen + [edge], podID) ==
            SeenImages(seen, podID) + if edge.kind == UsesImage && edge.from == podID then {edge.to} else {}
  {
  }

  lemma SeenImagesEnd(g: Graph, seen: seq<Edge>, podID: CanonicalID)
    requires g.Valid() && forall e :: e in seen <==> e.Triple() in g.edges && g.edges[e.Triple()] == e
    ensures SeenImages(seen, podID) == ImagesAmong(g, {podID})
  {
    forall k | k in g.edges && k.kind == UsesImage && k.from == podID
      ensures k.to in SeenImages(seen, podID)
    {
      assert g.edges[k] in seen;
    }
  }

  /** Where the loop stands after the edges `seen`. */
  ghost predicate Collecting(g: Graph, now: Graph, seen: seq<Edge>, podID: CanonicalID, doomed: EdgeKey -> bool,
                             deleted: nat, images: seq<CanonicalID>) {
    && EdgesLeft(g, now, seen, doomed) && deleted == |g.edges| - |now.edges| && Collected(images, SeenImages(seen, podID))
  }

  lemma CollectingStep(g: Graph, now: Graph, seen: seq<Edge>, edge: Edge, podID: CanonicalID, doomed: EdgeKey -> bool,
                       deleted: nat, images: seq<CanonicalID>, now': Graph)
    requires g.Valid() && Collecting(g, now, seen, podID, doomed, deleted, images)
    requires edge.Triple() in g.edges && g.edges[edge.Triple()] == edge && edge !in seen && now'.nodes == now.nodes
    requires now'.edges == if doomed(edge.Triple()) then now.edges - {edge.Triple()} else now.edges
    requires edge.kind == UsesImage && edge.from == podID ==> doomed(edge.Triple())
    ensures Collecting(g, now', seen + [edge], podID, doomed, deleted + if doomed(edge.Triple()) then 1 else 0,
                       if edge.kind == UsesImage && edge.from == podID then images + [edge.to] else images)
  {
    EdgesLeftStep(g, now, seen, edge, doomed, now');
    SeenImagesStep(seen, edge, podID);
    hide EdgesLeft, SeenImages;
  }

  lemma CollectingEnds(g: Graph, now: Graph, seen: seq<Edge>, podID: CanonicalID, doomed: EdgeKey -> bool,
                       deleted: nat, images: seq<CanonicalID>)
    requires g.Valid() && Collecting(g, now, seen, podID, doomed, deleted, images)
    requires forall e :: e in seen <==> e.Triple() in g.edges && g.edges[e.Triple()] == e
    ensures now == g.WithoutEdges(doomed) && deleted == |g.edges| - |now.edges|
    ensures Collected(images, ImagesAmong(g, {podID}))
  {
    hide EdgesLeft, SeenImages, ImagesAmong;
    EdgesLeftEnds(g, now, seen, doomed);
    SeenImagesEnd(g, seen, podID);
  }

  lemma CollectingStarts(g: Graph, podID: CanonicalID, doomed: EdgeKey -> bool)
    ensures Collecting(g, g, [], podID, doomed, 0, [])
  {
  }

  /** Deletes the matching edges, remembering the images the pod used through them. */
  method DeleteEdgesCollecting(kernel: Kernel, podID: CanonicalID, doomed: EdgeKey -> bool)
    returns (deleted: nat, images: seq<CanonicalID>)
    requires kernel.Valid() && forall k: EdgeKey | k.kind == UsesImage && k.from == podID :: doomed(k)
    modifies kernel.store
    ensures kernel.Valid() && kernel.View() == old(kernel.View()).WithoutEdges(doomed)
    ensures deleted == |old(kernel.View()).edges| - |kernel.View().edges|
    ensures Collected(images, ImagesAmong(old(kernel.View()), {podID}))
  {
    hide KeyString, Kernel.Valid, Kernel.View, Collecting, ImagesAmong, Collected;
    var listed := kernel.ListEdges();
    ghost var g := kernel.View();
    deleted, images := 0, [];
    CollectingStarts(g, podID, doomed);
    for i := 0 to |listed|
      invariant kernel.Valid() && Collecting(g, kernel.View(), listed[..i], podID, doomed, deleted, images)
    {
      var edge := listed[i];
      PrefixStep(listed, i);
      ghost var now := kernel.View();
      ghost var deleted0, images0 := deleted, images;
      if doomed(edge.Triple()) {
        if edge.kind == UsesImage && edge.from == podID {
          images := images + [edge.to];
        }
        kernel.DeleteEdge(edge.Key());
        DeletedKey(now, kernel.View(), edge);
        deleted := deleted + 1;
      }
      CollectingStep(g, now, listed[..i], edge, podID, doomed, deleted0, images0, kernel.View());
    }
    PrefixEnds(listed);
    CollectingEnds(g, kernel.View(), listed, podID, doomed, deleted, images);
  }

  /** The images gathered while the pods `gone` went: those they used, short of gone pods themselves. */
  ghost predicate Gathered(g: Graph, gone: set<CanonicalID>, images: seq<CanonicalID>) {
    && (forall id | id in images :: id in ImagesAmong(g, gone))
    && (forall id | id in ImagesAmong(g, gone) :: id in images || id in gone)
  }

  lemma GatheredStep(g: Graph, gone: set<CanonicalID>, images: seq<CanonicalID>, id: CanonicalID, more: seq<CanonicalID>)
    requires Gathered(g, gone, images) && Collected(more, ImagesAmong(g.WithoutNodes(gone), {id})) && id !in gone
    ensures Gathered(g, gone + {id}, images + more)
  {
    forall to | to in ImagesAmong(g, gone + {id})
      ensures to in images + more || to in gone + {id}
    {
      var k :| k in g.edges && k.kind == UsesImage && k.from in gone + {id} && k.to == to;
      if k.from in gone {
        assert to in ImagesAmong(g, gone);
      } else if to !in gone {
        assert k in g.WithoutNodes(gone).edges;
        assert to in ImagesAmong(g.WithoutNodes(gone), {id});
      }
    }
    forall to | to in images + more
      ensures to in ImagesAmong(g, gone + {id})
    {
      if to in images {
        assert to in ImagesAmong(g, gone);
      } else {
        assert to in ImagesAmong(g.WithoutNodes(gone), {id});
      }
    }
  }

  lemma DropNode(g: Graph, gone: set<CanonicalID>, id: CanonicalID)
    ensures g.WithoutNodes(gone).WithoutEdges(AtNode(id)).WithoutNodes({id}) == g.WithoutNodes(gone + {id})
    ensures g.WithoutNodes(gone).WithoutEdges(AtNode(id)).edges == g.WithoutNodes(gone + {id}).edges
  {
    assert g.nodes - gone - {id} == g.nodes - (gone + {id});
  }

  /** The images released, as the update collects them: stale pods that were images of others may be missing. */
  ghost predicate IsReleased(g: Graph, namespace: Text, name: Text, keep: CanonicalID, images: seq<CanonicalID>) {
    && (forall id | id in images :: id in ImagesReleased(g, namespace, name, keep))
    && (forall id | id in ImagesReleased(g, namespace, name, keep) :: id in images || id in StaleIDs(g, namespace, name, keep))
  }

  lemma ReleasedInAll(g: Graph, namespace: Text, name: Text, keep: CanonicalID, images: seq<CanonicalID>, more: seq<CanonicalID>)
    requires Gathered(g, StaleIDs(g, namespace, name, keep), images)
    requires keep == "" ==> more == []
    requires keep != "" ==> Collected(more, ImagesAmong(g.WithoutNodes(StaleIDs(g, namespace, name, keep)), {keep}))
    ensures IsReleased(g, namespace, name, keep, images + more)
  {
    hide StaleIDs, ImagesAmong;
  }

  /** Deletes every stale pod with the edges at it, one at a time. */
  method DeleteStalePods(kernel: Kernel, namespace: Text, name: Text, keep: CanonicalID) returns (deleted: nat, images: seq<CanonicalID>)
    requires kernel.Valid()
    modifies kernel.store
    ensures kernel.Valid()
    ensures kernel.View() == old(kernel.View()).WithoutNodes(StaleIDs(old(kernel.View()), namespace, name, keep))
    ensures deleted == |old(kernel.View()).edges| - |kernel.View().edges|
    ensures Gathered(old(kernel.View()), StaleIDs(old(kernel.View()), namespace, name, keep), images)
  {
    hide Kernel.Valid, Kernel.View, Gathered, Collected, ImagesAmong, Graph.WithoutNodes, Graph.WithoutEdges, Swept, Doomed, StalePod;
    ghost var g := kernel.View();
    var listed := kernel.ListNodes();
    ghost var gone: set<CanonicalID> := {};
    var doomed := StalePod(namespace, name, keep);
    NothingSwept(g, doomed);
    deleted, images := 0, [];
    assert Gathered(g, {}, []) by { GatheredNothing(g); }
    for i := 0 to |listed|
      invariant kernel.Valid() && kernel.View() == g.WithoutNodes(gone) && Swept(g, listed[..i], doomed, gone)
      invariant deleted == |g.edges| - |kernel.View().edges|
      invariant Gathered(g, gone, images)
    {
      var node := listed[i];
      PrefixStep(listed, i);
      SweptStep(g, listed[..i], node, doomed, gone);
      if doomed(node) {
        var more, found := DeleteEdgesCollecting(kernel, node.id, AtNode(node.id));
        GatheredStep(g, gone, images, node.id, found);
        DropNode(g, gone, node.id);
        kernel.DeleteNode(node.id);
        deleted, images := deleted + more, images + found;
        gone := gone + {node.id};
      }
    }
    PrefixEnds(listed);
    SweptAll(g, listed, doomed, gone);
  }

  lemma GatheredNothing(g: Graph)
    ensures Gathered(g, {}, [])
  {
  }

  method DeletePods(kernel: Kernel, namespace: Text, name: Text, keep: CanonicalID) returns (deleted: nat, images: seq<CanonicalID>)
    requires kernel.Valid()
    modifies kernel.store
    ensures kernel.Valid() && kernel.View() == PodsDeleted(old(kernel.View()), namespace, name, keep)
    ensures deleted == |old(kernel.View()).edges| - |kernel.View().edges|
    ensures IsReleased(old(kernel.View()), namespace, name, keep, images)
  {
    hide Kernel.Valid, Kernel.View, Gathered, Collected, ImagesAmong, StaleIDs, IsReleased;
    ghost var g := kernel.View();
    deleted, images := DeleteStalePods(kernel, namespace, name, keep);
    var extra: seq<CanonicalID> := [];
    ghost var stale := images;
    if keep != "" {
      var more;
      more, extra := DeleteEdgesCollecting(kernel, keep, PodScope(keep));
      deleted, images := deleted + more, images + extra;
    }
    ReleasedInAll(g, namespace, name, keep, stale, extra);
    assert stale + [] == stale;
  }

  /** Upserts the image nodes and uses_image edges in turn. */
  method UpsertImages(kernel: Kernel, c: Text, podID: CanonicalID, images: seq<Text>)
    requires kernel.Valid()
    modifies kernel.store
    ensures kernel.Valid()
    ensures kernel.View() == old(kernel.View()).WithAll(ImageNodes(c, images), ImageEdges(c, podID, images))
  {
    hide Kernel.Valid, Kernel.View, ImageID;
    ghost var g := kernel.View();
    assert g.WithAll([], []) == g;
    for i := 0 to |images|
      invariant kernel.Valid() && kernel.View() == g.WithAll(ImageNodes(c, images[..i]), ImageEdges(c, podID, images[..i]))
    {
      assert images[..i + 1][..i] == images[..i];
      kernel.UpsertNode(ImageNode(c, images[i], i));
      kernel.UpsertEdge(NewEdge(podID, ImageID(c, images[i]), UsesImage));
      ImageStep(g, c, podID, images, i);
    }
    PrefixEnds(images);
  }

  lemma ImageNodeStep(m: NodeMap, c: Text, images: seq<Text>, i: nat)
    requires i < |images|
    ensures (m + ToNodes(ImageNodes(c, images[..i])))[ImageID(c, images[i]) := ImageNode(c, images[i], i)] ==
            m + ToNodes(ImageNodes(c, images[..i + 1]))
  {
    hide ImageID;
    assert images[..i + 1][..i] == images[..i];
    var ns, node := ImageNodes(c, images[..i]), ImageNode(c, images[i], i);
    ImageCount(c, images[..i]);
    assert (ns + [node])[..|ns|] == ns;
  }

  lemma ImageEdgeStep(m: EdgeMap, c: Text, podID: CanonicalID, images: seq<Text>, i: nat)
    requires i < |images|
    ensures var edge := NewEdge(podID, ImageID(c, images[i]), UsesImage);
            (m + ToEdges(ImageEdges(c, podID, images[..i])))[edge.Triple() := edge] == m + ToEdges(ImageEdges(c, podID, images[..i + 1]))
  {
    hide ImageID;
    assert images[..i + 1][..i] == images[..i];
    var es, edge := ImageEdges(c, podID, images[..i]), NewEdge(podID, ImageID(c, images[i]), UsesImage);
    assert (es + [edge])[..|es|] == es;
  }

  lemma ImageStep(g: Graph, c: Text, podID: CanonicalID, images: seq<Text>, i: nat)
    requires i < |images|
    ensures var now := g.WithAll(ImageNodes(c, images[..i]), ImageEdges(c, podID, images[..i]));
            now.WithNode(ImageNode(c, images[i], i)).WithEdge(NewEdge(podID, ImageID(c, images[i]), UsesImage))
            == g.WithAll(ImageNodes(c, images[..i + 1]), ImageEdges(c, podID, images[..i + 1]))
  {
    hide ImageID, ImageNodes, ImageEdges, ToNodes, ToEdges;
    ImageNodeStep(g.nodes, c, images, i);
    ImageEdgeStep(g.edges, c, podID, images, i);
  }

  lemma {:induction false} ImageCount(c: Text, images: seq<Text>)
    ensures |ImageNodes(c, images)| == |images|
  {
    if images != [] {
      ImageCount(c, images[..|images| - 1]);
    }
  }

  /** Upserts one section of a pod's edges. */
  method UpsertSection(kernel: Kernel, es: seq<Edge>, ghost g: Graph, ghost ns: seq<Node>, ghost before: seq<Edge>, count: nat)
    returns (upserted: nat)
    requires kernel.Valid() && kernel.View() == g.WithAll(ns, before) && count == |before|
    modifies kernel.store
    ensures kernel.Valid() && kernel.View() == g.WithAll(ns, before + es) && upserted == |before + es|
  {
    hide Kernel.Valid, Kernel.View, ToEdges, ToNodes;
    UpsertEdgeList(kernel, es);
    AccumulateEdges(g.edges, before, es);
    upserted := count + |es|;
  }

  method RebuildPodEdges(kernel: Kernel, c: Text, s: Snapshot, p: KubePod) returns (upserted: nat)
    requires kernel.Valid()
    modifies kernel.store
    ensures kernel.Valid() && upserted == |RebuiltPodEdges(c, s, p)|
    ensures kernel.View() == old(kernel.View()).WithAll(ImageNodes(c, p.containerImages), RebuiltPodEdges(c, s, p))
  {
    var m, id := PodMapsOf(c, s), PodID(c, p);
    hide Kernel.Valid, Kernel.View, PodMapsOf, PodID, ScheduledEdges, ImageEdges, ImageNodes, RefEdges, ServiceAccountEdges, OwnerEdges,
         SelectorF, Flat, Graph.WithAll, ResolveReferences;
    ghost var g := kernel.View();
    ghost var ns := ImageNodes(c, p.containerImages);
    upserted := UpsertScheduledAndImages(kernel, c, id, p, m.nodes);
    ghost var es := ScheduledEdges(id, p, m.nodes) + ImageEdges(c, id, p.containerImages);
    var refs := RefEdges(id, UsesConfigMap, p.meta.namespace, p.configMapRefs, m.configMaps);
    upserted := UpsertSection(kernel, refs, g, ns, es, upserted);
    es := es + refs;
    refs := RefEdges(id, UsesSecret, p.meta.namespace, p.secretRefs, m.secrets);
    upserted := UpsertSection(kernel, refs, g, ns, es, upserted);
    es := es + refs;
    refs := RefEdges(id, MountsPVC, p.meta.namespace, p.pvcRefs, m.pvcs);
    upserted := UpsertSection(kernel, refs, g, ns, es, upserted);
    es := es + refs;
    refs := ServiceAccountEdges(id, p, m.accounts);
    upserted := UpsertSection(kernel, refs, g, ns, es, upserted);
    es := es + refs;
    var targets := ResolveOwnerReferences(m.owners, p.meta.namespace, p.ownerReferences);
    upserted := UpsertSection(kernel, OwnerEdges(id, targets), g, ns, es, upserted);
    es := es + OwnerEdges(id, targets);
    var selected := Append([], s.services, SelectorF(c, p));
    upserted := UpsertSection(kernel, selected, g, ns, es, upserted);
  }

  method UpsertScheduledAndImages(kernel: Kernel, c: Text, id: CanonicalID, p: KubePod, nodeIDs: map<string, CanonicalID>)
    returns (upserted: nat)
    requires kernel.Valid()
    modifies kernel.store
    ensures var es := ScheduledEdges(id, p, nodeIDs) + ImageEdges(c, id, p.containerImages);
            && kernel.Valid() && upserted == |es|
            && kernel.View() == old(kernel.View()).WithAll(ImageNodes(c, p.containerImages), es)
  {
    hide Kernel.Valid, Kernel.View, ScheduledEdges, ToEdges, ToNodes;
    ghost var g := kernel.View();
    var es := ScheduledEdges(id, p, nodeIDs);
    UpsertEdgeList(kernel, es);
    UpsertImages(kernel, c, id, p.containerImages);
    AccumulateEdges(g.edges, es, ImageEdges(c, id, p.containerImages));
    ImageEdgeCount(c, id, p.containerImages);
    upserted := |es| + |p.containerImages|;
  }

  lemma {:induction false} ImageEdgeCount(c: Text, podID: CanonicalID, images: seq<Text>)
    ensures |ImageEdges(c, podID, images)| == |images|
  {
    if images != [] {
      ImageEdgeCount(c, podID, images[..|images| - 1]);
    }
  }

  /** Whether any stored edge touches the identifier. */
  method NodeReferenced(kernel: Kernel, id: CanonicalID) returns (referenced: bool)
    requires kernel.Valid()
    ensures referenced <==> exists k :: k in kernel.View().edges && TouchesKey(k, id)
  {
    hide Kernel.Valid, Kernel.View;
    var listed := kernel.ListEdges();
    ghost var g := kernel.View();
    for i := 0 to |listed|
      invariant forall j | 0 <= j < i :: !TouchesKey(listed[j].Triple(), id)
    {
      if listed[i].from == id || listed[i].to == id {
        assert listed[i] in listed && listed[i].Triple() in g.edges;
        return true;
      }
    }
    forall k | k in g.edges
      ensures !TouchesKey(k, id)
    {
      assert g.edges[k] in listed;
    }
    return false;
  }

  ghost function Listed(ids: seq<CanonicalID>): set<CanonicalID> {
    set id | id in ids
  }

  /** Pruning orphans touches no edge. */
  lemma PruningKeepsEdges(g: Graph, ids: set<CanonicalID>)
    ensures Pruned(g, ids).edges == g.edges
    ensures forall id :: IsOrphanImage(Pruned(g, ids), id) <==> IsOrphanImage(g, id) && id !in ids
  {
    assert forall k, id | k in g.edges && id in Orphans(g, ids) :: !TouchesKey(k, id);
    assert Pruned(g, ids).edges == g.edges;
  }

  lemma DroppedInTurn(g: Graph, gone: set<CanonicalID>, id: CanonicalID)
    requires id in g.WithoutNodes(gone).nodes
    ensures g.WithoutNodes(gone).WithoutNodes({id}) == g.WithoutNodes(gone + {id})
    ensures |g.WithoutNodes(gone + {id}).nodes| == |g.WithoutNodes(gone).nodes| - 1
  {
    var now := g.WithoutNodes(gone);
    assert now.nodes - {id} == g.nodes - (gone + {id});
    assert (now.nodes - {id}).Keys == now.nodes.Keys - {id};
  }

  /** So pruning them in turn is pruning them at once. */
  lemma PruneStep(g: Graph, ids: set<CanonicalID>, id: CanonicalID)
    ensures IsOrphanImage(Pruned(g, ids), id) ==>
      Pruned(g, ids).WithoutNodes({id}) == Pruned(g, ids + {id}) && |Pruned(g, ids + {id}).nodes| == |Pruned(g, ids).nodes| - 1
    ensures !IsOrphanImage(Pruned(g, ids), id) ==> Pruned(g, ids) == Pruned(g, ids + {id})
  {
    PruningKeepsEdges(g, ids);
    hide Graph.WithoutNodes;
    if IsOrphanImage(Pruned(g, ids), id) {
      assert Orphans(g, ids + {id}) == Orphans(g, ids) + {id};
      DroppedInTurn(g, Orphans(g, ids), id);
    } else {
      assert Orphans(g, ids + {id}) == Orphans(g, ids);
    }
  }

  method PruneImages(kernel: Kernel, images: seq<CanonicalID>) returns (deleted: nat)
    requires kernel.Valid()
    modifies kernel.store
    ensures kernel.Valid() && kernel.View() == Pruned(old(kernel.View()), Listed(images))
    ensures deleted == |old(kernel.View()).nodes| - |kernel.View().nodes|
  {
    hide Kernel.Valid, Kernel.View, Pruned, Graph.WithoutNodes;
    ghost var g := kernel.View();
    PruneNothing(g);
    deleted := 0;
    for i := 0 to |images|
      invariant kernel.Valid() && kernel.View() == Pruned(g, Listed(images[..i]))
      invariant deleted == |g.nodes| - |kernel.View().nodes|
    {
      var id := images[i];
      PrefixStep(images, i);
      PruneStep(g, Listed(images[..i]), id);
      assert Listed(images[..i + 1]) == Listed(images[..i]) + {id};
      var referenced := NodeReferenced(kernel, id);
      if referenced {
        continue;
      }
      var node, ok := kernel.GetNode(id);
      if !ok || node.kind != Image {
        continue;
      }
      kernel.DeleteNode(id);
      deleted := deleted + 1;
    }
    PrefixEnds(images);
  }

  lemma PruneNothing(g: Graph)
    ensures Pruned(g, Listed([])) == g
  {
    assert Listed([]) == {};
    assert Orphans(g, {}) == {};
    assert g.WithoutNodes({}) == g;
  }

  /** The pods the update deleted are not among the images it prunes. */
  lemma PrunesTheReleased(g: Graph, now: Graph, namespace: Text, name: Text, keep: CanonicalID, images: seq<CanonicalID>)
    requires IsReleased(g, namespace, name, keep, images)
    requires forall id | id in StaleIDs(g, namespace, name, keep) :: !IsOrphanImage(now, id)
    ensures Pruned(now, Listed(images)) == Pruned(now, ImagesReleased(g, namespace, name, keep))
  {
    hide StaleIDs, ImagesReleased, IsOrphanImage;
    assert Orphans(now, Listed(images)) == Orphans(now, ImagesReleased(g, namespace, name, keep));
  }

  lemma DeletedPodsAreGone(g: Graph, namespace: Text, name: Text, keep: CanonicalID)
    ensures forall id | id in StaleIDs(g, namespace, name, keep) :: id !in PodsDeleted(g, namespace, name, keep).nodes
  {
  }

  lemma {:induction false} ImagesAreUsed(c: Text, podID: CanonicalID, images: seq<Text>, id: CanonicalID)
    requires id in ToNodes(ImageNodes(c, images))
    ensures exists e | e in ImageEdges(c, podID, images) :: e.to == id
  {
    hide ImageID;
    var init := images[..|images| - 1];
    ImageCount(c, images);
    if id in ToNodes(ImageNodes(c, init)) {
      ImagesAreUsed(c, podID, init, id);
      var e :| e in ImageEdges(c, podID, init) && e.to == id;
      assert e in ImageEdges(c, podID, images);
    } else {
      var last := ImageEdges(c, podID, images)[|ImageEdges(c, podID, images)| - 1];
      assert last in ImageEdges(c, podID, images);
    }
  }

  /** What comes back after the deletion is a pod or an image in use. */
  lemma RestoredAreNoOrphans(g: Graph, c: Text, s: Snapshot, p: KubePod, id: CanonicalID)
    requires id !in g.nodes
    ensures !IsOrphanImage(WithPod(g, c, s, p), id)
  {
    var now, es := WithPod(g, c, s, p), RebuiltPodEdges(c, s, p);
    if id in ToNodes(ImageNodes(c, p.containerImages)) {
      ImagesAreUsed(c, PodID(c, p), p.containerImages, id);
      var e :| e in ImageEdges(c, PodID(c, p), p.containerImages) && e.to == id;
      assert e in es by { hide ImageEdges; }
      ToEdgesMembers(es);
      assert e.Triple() in now.edges && TouchesKey(e.Triple(), id);
    }
  }

  method Apply(kernel: Kernel, c: Text, s: Snapshot, namespace: Text, name: Text, change: ChangeType) returns (out: Outcome<PodApplyResult>)
    requires kernel.Valid()
    modifies kernel.store
    ensures kernel.Valid() && kernel.View() == Reconciled(old(kernel.View()), c, s, namespace, name, change)
    ensures out.Failed? <==> namespace == "" || name == ""
    ensures out.Done? ==> (out.result.deleted <==> change == ChangeDelete || FindPod(s.pods, namespace, name).NoPod?)
    ensures out.Done? ==>
      var g := old(kernel.View());
      out.result.deletedEdges == |g.edges| - |PodsDeleted(g, namespace, name, KeptID(c, s, namespace, name, change)).edges|
    ensures out.Done? ==>
      out.result.deletedImages == |Unpruned(old(kernel.View()), c, s, namespace, name, change).nodes| - |kernel.View().nodes|
    ensures out.Done? && out.result.deleted ==> out.result.upsertedEdges == 0 && (out.result.applied <==> out.result.deletedEdges > 0)
    ensures out.Done? && !out.result.deleted ==>
      out.result.applied && out.result.upsertedEdges == |RebuiltPodEdges(c, s, FindPod(s.pods, namespace, name).pod)|
  {
    hide Kernel.Valid, Kernel.View, StaleIDs, ImagesReleased, IsReleased, Pruned, PodsDeleted, RebuiltPodEdges, IsOrphanImage, ImageNodes,
         Graph.WithAll, PodNode, Unpruned;
    if namespace == "" || name == "" {
      return Failed("pod reconcile requires namespace and name");
    }
    ghost var g := kernel.View();
    var found := FindPod(s.pods, namespace, name);
    if change == ChangeDelete || found.NoPod? {
      var deletedEdges, images := DeletePods(kernel, namespace, name, "");
      DeletedPodsAreGone(g, namespace, name, "");
      NoNodeNoOrphan(kernel.View());
      PrunesTheReleased(g, kernel.View(), namespace, name, "", images);
      UnprunedIs(g, c, s, namespace, name, change);
      var pruned := PruneImages(kernel, images);
      return Done(PodApplyResult(deletedEdges > 0, true, 0, deletedEdges, pruned));
    }
    var id := PodID(c, found.pod);
    var deletedEdges, images := DeletePods(kernel, namespace, name, id);
    ghost var cleared := kernel.View();
    kernel.UpsertNode(PodNode(c, found.pod));
    var upsertedEdges := RebuildPodEdges(kernel, c, s, found.pod);
    assert kernel.View() == WithPod(cleared, c, s, found.pod);
    DeletedPodsAreGone(g, namespace, name, id);
    forall gone | gone in StaleIDs(g, namespace, name, id) { RestoredAreNoOrphans(cleared, c, s, found.pod, gone); }
    PrunesTheReleased(g, kernel.View(), namespace, name, id, images);
    UnprunedIs(g, c, s, namespace, name, change);
    var pruned := PruneImages(kernel, images);
    return Done(PodApplyResult(true, false, upsertedEdges, deletedEdges, pruned));
  }

  lemma UnprunedIs(g: Graph, c: Text, s: Snapshot, namespace: Text, name: Text, change: ChangeType)
    ensures var found := FindPod(s.pods, namespace, name);
            Unpruned(g, c, s, namespace, name, change) ==
              if change == ChangeDelete || found.NoPod? then PodsDeleted(g, namespace, name, "")
              else WithPod(PodsDeleted(g, namespace, name, PodID(c, found.pod)), c, s, found.pod)
  {
    hide PodsDeleted, WithPod, FindPod, PodID;
  }

  lemma NoNodeNoOrphan(g: Graph)
    ensures forall id | id !in g.nodes :: !IsOrphanImage(g, id)
  {
  }
}
