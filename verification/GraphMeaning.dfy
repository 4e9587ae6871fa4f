/** What the ownership and selection links of a full rebuild, and of narrow updates, say about the snapshot. */
module GraphMeaning {
  import opened Identity
  import opened GraphModel
  import opened Resources
  import opened OwnerChain
  import opened OwnerReach
  import opened OwnerLookup
  import opened Csi
  import opened Builder
  import opened RebuildSections
  import opened SnapshotLinks
  import opened LinkPasses
  import opened PodLinks
  import opened Changes
  import SR = StorageRefinement
  import Pods = PodReconciler
  import PR = PodRefinement
  import Workloads = WorkloadReconciler
  import WR = WorkloadRefinement
  import Services = ServiceReconciler

  // ---- Ownership ----

  lemma {:induction false} OwnerEdgesHave(podID: CanonicalID, targets: seq<WorkloadTarget>, p: CanonicalID, w: CanonicalID)
    ensures HasEdge(OwnerEdges(podID, targets), EdgeKey(p, ManagedBy, w)) <==> p == podID && HasID(targets, w)
    ensures HasEdge(OwnerEdges(podID, targets), EdgeKey(w, OwnsPod, p)) <==> p == podID && HasID(targets, w)
  {
    if targets != [] {
      var init, t := targets[..|targets| - 1], targets[|targets| - 1];
      OwnerEdgesHave(podID, init, p, w);
      assert targets == init + [t];
      var e, f := NewEdge(podID, t.id, ManagedBy), NewEdge(t.id, podID, OwnsPod);
      var es := OwnerEdges(podID, init);
      assert OwnerEdges(podID, targets) == es + [e, f];
      LastTwo(es, e, f, EdgeKey(p, ManagedBy, w));
      LastTwo(es, e, f, EdgeKey(w, OwnsPod, p));
      LastTarget(init, t, w);
    }
  }

  lemma LastTwo(es: seq<Edge>, e: Edge, f: Edge, k: EdgeKey)
    ensures HasEdge(es + [e, f], k) <==> HasEdge(es, k) || e.Triple() == k || f.Triple() == k
  {
    assert e in es + [e, f] && f in es + [e, f];
  }

  lemma LastTarget(init: seq<WorkloadTarget>, t: WorkloadTarget, w: CanonicalID)
    ensures HasID(init + [t], w) <==> HasID(init, w) || t.id == w
  {
    assert t in init + [t];
  }

  lemma {:induction false} ControlledByHave(child: CanonicalID, targets: seq<WorkloadTarget>, a: CanonicalID, b: CanonicalID)
    ensures HasEdge(ControlledByEdges(child, targets), EdgeKey(a, ControlledBy, b)) <==> a == child && b != child && HasID(targets, b)
  {
    if targets != [] {
      var init, t := targets[..|targets| - 1], targets[|targets| - 1];
      ControlledByHave(child, init, a, b);
      assert targets == init + [t];
      LastTarget(init, t, b);
      LastOne(ControlledByEdges(child, init), NewEdge(child, t.id, ControlledBy), EdgeKey(a, ControlledBy, b));
    }
  }

  /** A pod of the snapshot with this identifier reaches the workload through controlling references. */
  ghost predicate PodOwnedBy(c: Text, s: Snapshot, p: CanonicalID, w: CanonicalID) {
    exists pod | pod in s.pods ::
      PodID(c, pod) == p && OwnsID(NewChainResolver(c, s.workloads, s.replicaSets), pod.meta.namespace, pod.ownerReferences, w)
  }

  /** A workload of the snapshot with this identifier reaches another one through controlling references. */
  ghost predicate WorkloadOwnedBy(c: Text, s: Snapshot, a: CanonicalID, b: CanonicalID) {
    a != b && exists x | x in s.workloads ::
      WorkloadID(c, x) == a && OwnsID(NewChainResolver(c, s.workloads, s.replicaSets), x.meta.namespace, x.ownerReferences, b)
  }

  const OWNERSHIP: set<EdgeKind> := {ManagedBy, OwnsPod, ControlledBy}

  ghost predicate OwnershipSays(c: Text, s: Snapshot, k: EdgeKey)
    requires k.kind in OWNERSHIP
  {
    match k.kind
    case ManagedBy => PodOwnedBy(c, s, k.from, k.to)
    case OwnsPod => PodOwnedBy(c, s, k.to, k.from)
    case ControlledBy => WorkloadOwnedBy(c, s, k.from, k.to)
  }

  lemma OwnersOfPodSay(c: Text, s: Snapshot, pod: KubePod, p: CanonicalID, w: CanonicalID)
    requires ToldApart(NewChainResolver(c, s.workloads, s.replicaSets))
    ensures var r, es := NewChainResolver(c, s.workloads, s.replicaSets), PodEdges(PodMapsOf(c, s), PodID(c, pod), pod);
            var owned := PodID(c, pod) == p && OwnsID(r, pod.meta.namespace, pod.ownerReferences, w);
            (HasEdge(es, EdgeKey(p, ManagedBy, w)) <==> owned) && (HasEdge(es, EdgeKey(w, OwnsPod, p)) <==> owned)
  {
    hide ToldApart, OwnsID, ResolveReferences, OwnerEdges, PodEdges, PodID, NewChainResolver, HasEdge, HasID;
    var r := NewChainResolver(c, s.workloads, s.replicaSets);
    PodEdgesHave(PodMapsOf(c, s), PodID(c, pod), pod, EdgeKey(p, ManagedBy, w));
    PodEdgesHave(PodMapsOf(c, s), PodID(c, pod), pod, EdgeKey(w, OwnsPod, p));
    ResolvesExactlyOwners(r, pod.meta.namespace, pod.ownerReferences);
    OwnerEdgesHave(PodID(c, pod), ResolveReferences(r, pod.meta.namespace, pod.ownerReferences), p, w);
  }

  /** In a full rebuild a pod is managed by exactly the workloads it reaches through controlling references, and owned by the same. */
  lemma ManagedExactlyByOwners(c: Text, rules: seq<CSIRule>, x: Inferred, s: Snapshot, order: seq<string>, evidence: seq<Edge>,
                               p: CanonicalID, w: CanonicalID)
    requires InferredShape(x) && EdgesIn(evidence, {AffectedByWebhook})
    requires SR.UniquePods(c, s.pods) && ToldApart(NewChainResolver(c, s.workloads, s.replicaSets))
    ensures EdgeKey(p, ManagedBy, w) in Rebuilt(c, rules, x, s, order, evidence).edges <==> PodOwnedBy(c, s, p, w)
    ensures EdgeKey(w, OwnsPod, p) in Rebuilt(c, rules, x, s, order, evidence).edges <==> PodOwnedBy(c, s, p, w)
  {
    hide Rebuilt, Flat, PodEdgesF, PodEdges, PodMapsOf, ImageEdgesF, ServiceEdgesF, WorkloadEdgesF, StorageEdges, HasEdge, InferredShape,
         ToldApart, NewChainResolver, OwnsID, SR.UniquePods, PodID;
    RebuiltHas(c, rules, x, s, order, evidence, EdgeKey(p, ManagedBy, w));
    RebuiltHas(c, rules, x, s, order, evidence, EdgeKey(w, OwnsPod, p));
    PodPassHas(c, s, EdgeKey(p, ManagedBy, w));
    PodPassHas(c, s, EdgeKey(w, OwnsPod, p));
    forall pod | pod in s.pods { OwnersOfPodSay(c, s, pod, p, w); }
  }

  lemma ControlOf(c: Text, s: Snapshot, t: KubeWorkload, a: CanonicalID, b: CanonicalID)
    requires ToldApart(NewChainResolver(c, s.workloads, s.replicaSets))
    ensures HasEdge(WorkloadEdgesF(c, s)(t), EdgeKey(a, ControlledBy, b)) <==>
      WorkloadID(c, t) == a && a != b && OwnsID(NewChainResolver(c, s.workloads, s.replicaSets), t.meta.namespace, t.ownerReferences, b)
  {
    hide ToldApart, OwnsID, ResolveReferences, ControlledByEdges, WorkloadID, NewChainResolver;
    var r := NewChainResolver(c, s.workloads, s.replicaSets);
    var targets := ResolveReferences(r, t.meta.namespace, t.ownerReferences);
    ResolvesExactlyOwners(r, t.meta.namespace, t.ownerReferences);
    ControlledByHave(WorkloadID(c, t), targets, a, b);
  }

  /** In a full rebuild a workload is controlled by exactly the other workloads it reaches through controlling references. */
  lemma ControlledExactlyByOwners(c: Text, rules: seq<CSIRule>, x: Inferred, s: Snapshot, order: seq<string>, evidence: seq<Edge>,
                                  a: CanonicalID, b: CanonicalID)
    requires InferredShape(x) && EdgesIn(evidence, {AffectedByWebhook}) && ToldApart(NewChainResolver(c, s.workloads, s.replicaSets))
    ensures EdgeKey(a, ControlledBy, b) in Rebuilt(c, rules, x, s, order, evidence).edges <==> WorkloadOwnedBy(c, s, a, b)
  {
    hide Rebuilt, Flat, PodEdgesF, ImageEdgesF, ServiceEdgesF, WorkloadEdgesF, StorageEdges, HasEdge, InferredShape, ToldApart, NewChainResolver,
         OwnsID, WorkloadID;
    RebuiltHas(c, rules, x, s, order, evidence, EdgeKey(a, ControlledBy, b));
    FlatHas(s.workloads, WorkloadEdgesF(c, s), EdgeKey(a, ControlledBy, b));
    forall t | t in s.workloads { ControlOf(c, s, t, a, b); }
  }

  lemma RebuildShowsOwnership(c: Text, rules: seq<CSIRule>, x: Inferred, s: Snapshot, order: seq<string>, evidence: seq<Edge>, k: EdgeKey)
    requires InferredShape(x) && EdgesIn(evidence, {AffectedByWebhook}) && k.kind in OWNERSHIP
    requires SR.UniquePods(c, s.pods) && ToldApart(NewChainResolver(c, s.workloads, s.replicaSets))
    ensures k in Rebuilt(c, rules, x, s, order, evidence).edges <==> OwnershipSays(c, s, k)
  {
    hide Rebuilt, InferredShape, ToldApart, NewChainResolver, SR.UniquePods, PodOwnedBy, WorkloadOwnedBy;
    match k.kind
    case ManagedBy => ManagedExactlyByOwners(c, rules, x, s, order, evidence, k.from, k.to);
    case OwnsPod => ManagedExactlyByOwners(c, rules, x, s, order, evidence, k.to, k.from);
    case ControlledBy => ControlledExactlyByOwners(c, rules, x, s, order, evidence, k.from, k.to);
  }

  lemma UpdateMatchesOwners(g: Graph, c: Text, s: Snapshot, namespace: Text, name: Text, change: ChangeType, evidence: seq<Edge>,
                            ids: set<CanonicalID>, k: EdgeKey)
    requires SR.UniquePods(c, s.pods) && ToldApart(NewChainResolver(c, s.workloads, s.replicaSets))
    requires WR.Updates(c, s, namespace, name, change) && EdgesIn(evidence, {AffectedByWebhook}) && k.kind in OWNERSHIP
    requires ids == Workloads.WorkloadIDSet(c, Workloads.Kept(c, s, namespace, name, change)) && WR.IsOwnership(k, ids)
    ensures k in Workloads.Reconciled(g, c, s, namespace, name, change, evidence).edges <==> OwnershipSays(c, s, k)
  {
    hide Workloads.Reconciled, Workloads.WorkloadIDSet, Workloads.Kept, ToldApart, NewChainResolver, OwnershipSays, Rebuilt, SR.UniquePods,
         WR.Updates, WR.IsOwnership, Only;
    var x := Inferred([], [], []);
    WR.WorkloadUpdateMatchesRebuild(g, c, [], x, s, [], [], evidence, namespace, name, change);
    RebuildShowsOwnership(c, [], x, s, [], [], k);
    OnlyAgrees(Workloads.Reconciled(g, c, s, namespace, name, change, evidence).edges, Rebuilt(c, [], x, s, [], []).edges, WR.Ownership(ids), k);
  }

  /** The workload a link of ownership is about; a link between workloads is about both. */
  predicate IsAbout(k: EdgeKey, w: CanonicalID) {
    (k.kind == ManagedBy && k.to == w) || (k.kind == OwnsPod && k.from == w) || (k.kind == ControlledBy && (k.from == w || k.to == w))
  }

  /** From any prior graph, an update leaves about each listed workload of the name exactly the links of ownership the references make. */
  lemma UpdateLinksExactlyTheOwners(g: Graph, c: Text, s: Snapshot, namespace: Text, name: Text, change: ChangeType, evidence: seq<Edge>,
                                    w: CanonicalID, k: EdgeKey)
    requires SR.UniquePods(c, s.pods) && ToldApart(NewChainResolver(c, s.workloads, s.replicaSets))
    requires namespace != "" && name != "" && change == ChangeUpsert && EdgesIn(evidence, {AffectedByWebhook})
    requires ListsWorkload(c, s, namespace, name, w)
    requires k.kind in OWNERSHIP && IsAbout(k, w)
    ensures k in Workloads.Reconciled(g, c, s, namespace, name, change, evidence).edges <==> OwnershipSays(c, s, k)
  {
    hide Workloads.Reconciled, ToldApart, NewChainResolver, OwnershipSays, SR.UniquePods, WorkloadID, Workloads.Kept;
    Workloads.KeptAreTheNamed(c, s, namespace, name, change, w);
    var kept := Workloads.Kept(c, s, namespace, name, change);
    assert kept != [] by { assert w !in Workloads.WorkloadIDSet(c, []); }
    UpdateMatchesOwners(g, c, s, namespace, name, change, evidence, Workloads.WorkloadIDSet(c, kept), k);
  }

  /** And an update of a pod leaves it owned by exactly the workloads it reaches. */
  lemma PodUpdateLinksExactlyTheOwners(g: Graph, c: Text, s: Snapshot, namespace: Text, name: Text, change: ChangeType, k: EdgeKey)
    requires PR.DistinctPods(c, s.pods) && PR.UniqueServices(c, s.services) && ToldApart(NewChainResolver(c, s.workloads, s.replicaSets))
    requires PR.Updates(s, namespace, name, change) && k.kind in {ManagedBy, OwnsPod}
    requires (if k.kind == OwnsPod then k.to else k.from) == PodID(c, Pods.FindPod(s.pods, namespace, name).pod)
    ensures k in Pods.Reconciled(g, c, s, namespace, name, change).edges <==> OwnershipSays(c, s, k)
  {
    hide Pods.Reconciled, Rebuilt, OwnershipSays, PR.DistinctPods, PR.UniqueServices, SR.UniquePods, ToldApart, NewChainResolver, PodID, Pods.FindPod,
         PR.Updates;
    PR.DistinctPodsAreUnique(c, s.pods);
    OwnershipIsScoped(k);
    PodUpdateAgrees(g, c, s, namespace, name, change, k);
    RebuildShowsOwnership(c, [], Inferred([], [], []), s, [], [], k);
  }

  lemma OwnershipIsScoped(k: EdgeKey)
    requires k.kind in {ManagedBy, OwnsPod}
    ensures Pods.IsPodScopedEdge(k, if k.kind == OwnsPod then k.to else k.from)
  {
  }

  // ---- Owners as chains of references ----

  /** A chain of controlling references leads from the pod to the workload. */
  ghost predicate ChainFromPod(c: Text, s: Snapshot, p: CanonicalID, w: CanonicalID) {
    exists pod, b, n: nat | pod in s.pods ::
      PodID(c, pod) == p && ChainTo(OwnerObjects(c, s.workloads, s.replicaSets), pod.meta.namespace, pod.ownerReferences, b, n)
      && b.workload && b.target.id == w
  }

  ghost predicate ChainFromWorkload(c: Text, s: Snapshot, a: CanonicalID, w: CanonicalID) {
    a != w && exists x, b, n: nat | x in s.workloads ::
      WorkloadID(c, x) == a && ChainTo(OwnerObjects(c, s.workloads, s.replicaSets), x.meta.namespace, x.ownerReferences, b, n)
      && b.workload && b.target.id == w
  }

  /** Owners are the ends of chains of references, each naming a listed object by UID, version or name. */
  lemma OwnersAreChains(c: Text, s: Snapshot, p: CanonicalID, w: CanonicalID)
    requires PlainOwners(OwnerObjects(c, s.workloads, s.replicaSets))
    requires forall pod | pod in s.pods :: '/' !in pod.meta.namespace && PlainReferences(pod.ownerReferences)
    ensures PodOwnedBy(c, s, p, w) <==> ChainFromPod(c, s, p, w)
    ensures WorkloadOwnedBy(c, s, p, w) <==> ChainFromWorkload(c, s, p, w)
  {
    var objs := OwnerObjects(c, s.workloads, s.replicaSets);
    ObjectsStandForTheListed(c, s.workloads, s.replicaSets);
    hide OwnsID, ChainTo, PodID, WorkloadID, OwnerObjects, PlainReferences;
    forall pod | pod in s.pods { OwnersAreChainEnds(objs, pod.meta.namespace, pod.ownerReferences, w); }
    forall x | x in s.workloads
      ensures OwnsID(Built(objs), x.meta.namespace, x.ownerReferences, w) <==>
        exists b, n: nat :: ChainTo(objs, x.meta.namespace, x.ownerReferences, b, n) && b.workload && b.target.id == w
    {
      var i :| 0 <= i < |s.workloads| && s.workloads[i] == x;
      assert objs[i] in objs;
      OwnersAreChainEnds(objs, x.meta.namespace, x.ownerReferences, w);
    }
    hide PlainOwners, Built;
  }

  // ---- Selection ----

  /** A pod of the snapshot with this identifier is in the service's namespace and carries the labels it selects. */
  ghost predicate PodSelected(c: Text, s: Snapshot, v: KubeService, p: CanonicalID) {
    exists pod | pod in s.pods :: PodID(c, pod) == p && AsksFor(v, pod)
  }

  lemma SelectionHas(c: Text, s: Snapshot, v: KubeService, p: CanonicalID)
    ensures EdgeKey(ServiceID(c, v), SelectsPod, p) in ToEdges(Flat(s.pods, Services.SelectedF(c, v))) <==> PodSelected(c, s, v, p)
  {
    hide ToEdges, Flat, PodID, ServiceID, LabelsMatch, HasEdge, AsksFor;
    var k := EdgeKey(ServiceID(c, v), SelectsPod, p);
    FlatHas(s.pods, Services.SelectedF(c, v), k);
    forall pod | pod in s.pods
      ensures HasEdge(Services.SelectedF(c, v)(pod), k) <==> PodID(c, pod) == p && AsksFor(v, pod)
    {
      MatchingIsAsking(v, pod);
      OneHas(NewEdge(ServiceID(c, v), PodID(c, pod), SelectsPod), k);
    }
  }

  /** From any prior graph, an update leaves the service selecting exactly the pods its selector asks for. */
  lemma UpdateSelectsExactlyTheMatching(g: Graph, c: Text, s: Snapshot, namespace: Text, name: Text, change: ChangeType, p: CanonicalID)
    requires Services.Updates(s, namespace, name, change)
    ensures var v := Services.FindService(s.services, namespace, name).service;
            EdgeKey(ServiceID(c, v), SelectsPod, p) in Services.Reconciled(g, c, s, namespace, name, change).edges <==> PodSelected(c, s, v, p)
  {
    hide Services.Reconciled, Services.FindService, Flat, ToEdges, ServiceID, PodSelected, Services.SelectedF;
    var v := Services.FindService(s.services, namespace, name).service;
    Services.UpdatedEdges(g, c, s, namespace, name, change);
    SelectionHas(c, s, v, p);
    var k, edges := EdgeKey(ServiceID(c, v), SelectsPod, p), Services.Reconciled(g, c, s, namespace, name, change).edges;
    assert k in Only(edges, Services.SelectedBy(ServiceID(c, v))) <==> k in edges;
  }
}
