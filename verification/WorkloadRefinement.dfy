/** A workload update leaves exactly the ownership edges a full rebuild gives, from any prior state. */
module WorkloadRefinement {
  import opened Identity
  import opened Sorting
  import opened GraphModel
  import opened Resources
  import opened OwnerChain
  import opened Csi
  import opened Builder
  import opened RebuildSections
  import opened LinkPasses
  import opened Changes
  import opened WorkloadReconciler
  import OwnerReach
  import SR = StorageRefinement

  predicate IsOwnership(k: EdgeKey, ids: set<CanonicalID>) {
    (k.kind == ManagedBy && k.to in ids) || (k.kind == OwnsPod && k.from in ids)
    || (k.kind == ControlledBy && (k.from in ids || k.to in ids))
  }

  /** The ownership edges at the given workloads. */
  function Ownership(ids: set<CanonicalID>): EdgeKey -> bool { (k: EdgeKey) => IsOwnership(k, ids) }

  // ---- Resolution yields workloads of the snapshot ----

  lemma {:induction false} WalkListsWorkloads(r: Resolver, obj: OwnerObject, seen: set<string>)
    requires obj in r.Objects()
    ensures forall t | t in ResolveObject(r, obj, seen).0 :: exists o | o in r.Objects() :: o.workload && o.target == t
    decreases r.Keys() - seen, 0
  {
    if SeenKey(obj) !in seen {
      assert SeenKey(obj) in r.Keys() - seen;
      WalksListWorkloads(r, obj.namespace, ControllingReferences(obj.ownerReferences), seen + {SeenKey(obj)});
    }
  }

  lemma {:induction false} WalksListWorkloads(r: Resolver, namespace: string, refs: seq<OwnerReference>, seen: set<string>)
    ensures forall t | t in ResolveAll(r, namespace, refs, seen).0 :: exists o | o in r.Objects() :: o.workload && o.target == t
    decreases r.Keys() - seen, |refs|
  {
    if refs != [] {
      var found := r.Find(namespace, refs[0]);
      var seen1 := match found case Missing => seen case Found(obj) => ResolveObject(r, obj, seen).1;
      if found.Found? {
        WalkListsWorkloads(r, found.obj, seen);
      }
      assert r.Keys() - seen1 <= r.Keys() - seen;
      WalksListWorkloads(r, namespace, refs[1..], seen1);
    }
  }

  lemma {:induction false} AppendNewAdds(acc: seq<WorkloadTarget>, targets: seq<WorkloadTarget>)
    ensures forall t | t in AppendNew(acc, targets) :: t in acc || t in targets
    decreases targets
  {
    if targets != [] {
      assert targets == [targets[0]] + targets[1..];
      AppendNewAdds(acc, targets[1..]);
      AppendNewAdds(acc + [targets[0]], targets[1..]);
    }
  }

  lemma {:induction false} GatherListsWorkloads(r: Resolver, namespace: string, refs: seq<OwnerReference>, acc: seq<WorkloadTarget>)
    ensures forall t | t in Gather(r, namespace, refs, acc) :: t in acc || exists o | o in r.Objects() :: o.workload && o.target == t
    decreases refs
  {
    hide ResolveObject, AppendNew;
    if refs != [] {
      match r.Find(namespace, refs[0])
      case Missing => GatherListsWorkloads(r, namespace, refs[1..], acc);
      case Found(obj) =>
        WalkListsWorkloads(r, obj, {});
        AppendNewAdds(acc, ResolveObject(r, obj, {}).0);
        GatherListsWorkloads(r, namespace, refs[1..], AppendNew(acc, ResolveObject(r, obj, {}).0));
    }
  }

  /** Every owner resolution finds is a workload of the snapshot. */
  lemma TargetsAreWorkloads(c: Text, s: Snapshot, namespace: string, refs: seq<OwnerReference>)
    ensures forall t | t in ResolveReferences(NewChainResolver(c, s.workloads, s.replicaSets), namespace, refs) ::
              exists w | w in s.workloads :: t == WorkloadObject(c, w).target
  {
    var r := NewChainResolver(c, s.workloads, s.replicaSets);
    var refs' := ControllingReferences(refs);
    GatherListsWorkloads(r, namespace, refs', []);
    SortKeeps(Gather(r, namespace, refs', []), TargetKey());
    SameElements(Gather(r, namespace, refs', []), SortBy(Gather(r, namespace, refs', []), TargetKey()));
    forall o | o in r.Objects() && o.workload { StoredIsListed(c, s, o); }
    hide Gather, SortBy, ControllingReferences, NewChainResolver, WorkloadObject, Resolver.Objects;
  }

  lemma StoredIsListed(c: Text, s: Snapshot, o: OwnerObject)
    requires o in NewChainResolver(c, s.workloads, s.replicaSets).Objects() && o.workload
    ensures exists w | w in s.workloads :: o.target == WorkloadObject(c, w).target
  {
    var objs := OwnerObjects(c, s.workloads, s.replicaSets);
    OwnerReach.ObjectsComeFromTheLists(objs);
    hide AddAll, WorkloadID;
    var i :| 0 <= i < |objs| && objs[i] == o;
    assert i < |s.workloads| && o == WorkloadObject(c, s.workloads[i]);
  }

  // ---- Both sides, restricted to the scope ----

  lemma {:induction false} OnlySameFlat<A>(xs: seq<A>, f: A -> seq<Edge>, h: A -> seq<Edge>, p: EdgeKey -> bool)
    requires forall x | x in xs :: Only(ToEdges(f(x)), p) == Only(ToEdges(h(x)), p)
    ensures Only(ToEdges(Flat(xs, f)), p) == Only(ToEdges(Flat(xs, h)), p)
  {
    hide Only, ToEdges;
    if xs != [] {
      var init, last := xs[..|xs| - 1], xs[|xs| - 1];
      OnlySameFlat(init, f, h, p);
      OnlyAppend(Flat(init, f), f(last), p);
      OnlyAppend(Flat(init, h), h(last), p);
    }
  }

  lemma {:induction false} OwnerEdgesNameTargets(podID: CanonicalID, targets: seq<WorkloadTarget>)
    ensures forall e | e in OwnerEdges(podID, targets) ::
              exists t | t in targets :: e == NewEdge(podID, t.id, ManagedBy) || e == NewEdge(t.id, podID, OwnsPod)
  {
    if targets != [] {
      OwnerEdgesNameTargets(podID, targets[..|targets| - 1]);
      assert targets == targets[..|targets| - 1] + [targets[|targets| - 1]];
    }
  }

  lemma OwnershipOfPod(m: PodMaps, id: CanonicalID, pod: KubePod, ids: set<CanonicalID>)
    ensures Only(ToEdges(PodEdges(m, id, pod)), Ownership(ids)) == Only(ToEdges(OwnerEdges(id, PodTargets(m, pod))), Ownership(ids))
  {
    hide PodTargets, ToEdges, Only, PodEdges, RefEdges, OwnerEdges;
    OnlyPodEdges(m, id, pod, Ownership(ids));
    OnlyNone(ScheduledEdges(id, pod, m.nodes), Ownership(ids));
    OnlyNone(RefEdges(id, UsesConfigMap, pod.meta.namespace, pod.configMapRefs, m.configMaps), Ownership(ids));
    OnlyNone(RefEdges(id, UsesSecret, pod.meta.namespace, pod.secretRefs, m.secrets), Ownership(ids));
    OnlyNone(RefEdges(id, MountsPVC, pod.meta.namespace, pod.pvcRefs, m.pvcs), Ownership(ids));
    OnlyNone(ServiceAccountEdges(id, pod, m.accounts), Ownership(ids));
    EmptyIsNeutral<EdgeKey, Edge>();
  }

  lemma PodsInScope(id: CanonicalID, targets: seq<WorkloadTarget>, ids: set<CanonicalID>)
    ensures !ContainsTarget(targets, ids) ==> Only(ToEdges(OwnerEdges(id, targets)), Ownership(ids)) == map[]
  {
    if !ContainsTarget(targets, ids) {
      OwnerEdgesNameTargets(id, targets);
      hide OwnerEdges;
      OnlyNone(OwnerEdges(id, targets), Ownership(ids));
    }
  }

  lemma PodPass(c: Text, s: Snapshot, ids: set<CanonicalID>)
    requires SR.UniquePods(c, s.pods)
    ensures var r := NewChainResolver(c, s.workloads, s.replicaSets);
            Only(ToEdges(Flat(s.pods, PodOwnersF(c, r, ids))), Ownership(ids)) == Only(ToEdges(Flat(s.pods, PodEdgesF(c, s))), Ownership(ids))
  {
    var r, m := NewChainResolver(c, s.workloads, s.replicaSets), PodMapsOf(c, s);
    assert m.owners == r;
    forall pod | pod in s.pods
      ensures Only(ToEdges(PodOwnersF(c, r, ids)(pod)), Ownership(ids)) == Only(ToEdges(PodEdgesF(c, s)(pod)), Ownership(ids))
    {
      OnePod(c, s, ids, pod);
    }
    hide PodOwnersF, PodEdgesF, Ownership, Only, ToEdges;
    OnlySameFlat(s.pods, PodOwnersF(c, r, ids), PodEdgesF(c, s), Ownership(ids));
  }

  lemma OnePod(c: Text, s: Snapshot, ids: set<CanonicalID>, pod: KubePod)
    requires SR.UniquePods(c, s.pods) && pod in s.pods
    ensures var r := NewChainResolver(c, s.workloads, s.replicaSets);
            Only(ToEdges(PodOwnersF(c, r, ids)(pod)), Ownership(ids)) == Only(ToEdges(PodEdgesF(c, s)(pod)), Ownership(ids))
  {
    hide NewChainResolver, ResolveReferences, PodEdges, OwnerEdges, ContainsTarget, Ownership, Only, PodID, ListedPodID, PodIDs, SR.UniquePods;
    var m := PodMapsOf(c, s);
    SR.UniquePodsAreListed(c, s.pods, pod);
    OwnershipOfPod(m, PodID(c, pod), pod, ids);
    PodsInScope(PodID(c, pod), PodTargets(m, pod), ids);
    OnlyEmpty(Ownership(ids));
  }

  lemma {:induction false} ControlInScope(childID: CanonicalID, targets: seq<WorkloadTarget>, ids: set<CanonicalID>, all: set<CanonicalID>)
    requires forall t | t in targets :: t.id in all
    ensures Only(ToEdges(ScopedControl(childID, targets, ids, all)), Ownership(ids)) ==
            Only(ToEdges(ControlledByEdges(childID, targets)), Ownership(ids))
  {
    if targets != [] {
      var init, t := targets[..|targets| - 1], targets[|targets| - 1];
      ControlInScope(childID, init, ids, all);
      var a := if t.id != childID && (childID in ids || t.id in ids) && t.id in all then [NewEdge(childID, t.id, ControlledBy)] else [];
      var b := if t.id == childID then [] else [NewEdge(childID, t.id, ControlledBy)];
      OnlyAppend(ScopedControl(childID, init, ids, all), a, Ownership(ids));
      OnlyAppend(ControlledByEdges(childID, init), b, Ownership(ids));
      SingleInScope(childID, t.id, ids);
      OnlyEmpty(Ownership(ids));
      hide Only, ToEdges, Ownership;
    }
  }

  lemma SingleInScope(childID: CanonicalID, id: CanonicalID, ids: set<CanonicalID>)
    ensures childID !in ids && id !in ids ==> Only(ToEdges([NewEdge(childID, id, ControlledBy)]), Ownership(ids)) == map[]
  {
    if childID !in ids && id !in ids {
      OnlyNone([NewEdge(childID, id, ControlledBy)], Ownership(ids));
    }
  }

  lemma WorkloadPass(c: Text, s: Snapshot, ids: set<CanonicalID>)
    ensures var r := NewChainResolver(c, s.workloads, s.replicaSets);
            Only(ToEdges(Flat(s.workloads, ControlF(c, r, ids, WorkloadIDSet(c, s.workloads)))), Ownership(ids)) ==
            Only(ToEdges(Flat(s.workloads, WorkloadEdgesF(c, s))), Ownership(ids))
  {
    hide NewChainResolver, ResolveReferences, Only, ToEdges, Ownership, WorkloadID, ControlledByEdges, ScopedControl;
    var r, all := NewChainResolver(c, s.workloads, s.replicaSets), WorkloadIDSet(c, s.workloads);
    forall w | w in s.workloads
      ensures Only(ToEdges(ControlF(c, r, ids, all)(w)), Ownership(ids)) == Only(ToEdges(WorkloadEdgesF(c, s)(w)), Ownership(ids))
    {
      TargetsAreWorkloads(c, s, w.meta.namespace, w.ownerReferences);
      ControlInScope(WorkloadID(c, w), ResolveReferences(r, w.meta.namespace, w.ownerReferences), ids, all);
    }
    hide ControlF, WorkloadEdgesF;
    OnlySameFlat(s.workloads, ControlF(c, r, ids, all), WorkloadEdgesF(c, s), Ownership(ids));
  }

  lemma OtherPassesAreNotOwnership(c: Text, x: Inferred, s: Snapshot, evidence: seq<Edge>, storage: seq<Edge>, ids: set<CanonicalID>)
    requires InferredShape(x) && EdgesIn(evidence, {AffectedByWebhook}) && EdgesIn(storage, STORAGE_EDGES)
    ensures Only(ToEdges(Flat(s.pods, ImageEdgesF(c))), Ownership(ids)) == map[]
    ensures Only(ToEdges(x.helmEdges), Ownership(ids)) == map[]
    ensures Only(ToEdges(Flat(s.events, EventEdgesF(c, s))), Ownership(ids)) == map[]
    ensures Only(ToEdges(Flat(s.roleBindings, RoleBindingEdgesF(c, s))), Ownership(ids)) == map[]
    ensures Only(ToEdges(Flat(s.clusterRoleBindings, ClusterRoleBindingEdgesF(c, s))), Ownership(ids)) == map[]
    ensures Only(ToEdges(x.controllerEdges), Ownership(ids)) == map[]
    ensures Only(ToEdges(storage), Ownership(ids)) == map[] && Only(ToEdges(evidence), Ownership(ids)) == map[]
    ensures Only(ToEdges(Flat(s.services, ServiceEdgesF(c, s))), Ownership(ids)) == map[]
  {
    PassKinds(c, s);
    hide Flat, ToEdges, Only, EdgesIn, ImageEdgesF, EventEdgesF, PodEdgesF, RoleBindingEdgesF, ClusterRoleBindingEdgesF, WorkloadEdgesF,
         ServiceEdgesF;
    OnlyNoKind(Flat(s.pods, ImageEdgesF(c)), {UsesImage}, Ownership(ids));
    OnlyNoKind(x.helmEdges, HELM_EDGES, Ownership(ids));
    OnlyNoKind(Flat(s.events, EventEdgesF(c, s)), {ReportedByEvent}, Ownership(ids));
    OnlyNoKind(Flat(s.roleBindings, RoleBindingEdgesF(c, s)), {BoundByRoleBinding}, Ownership(ids));
    OnlyNoKind(Flat(s.clusterRoleBindings, ClusterRoleBindingEdgesF(c, s)), {BoundByRoleBinding}, Ownership(ids));
    OnlyNoKind(x.controllerEdges, CONTROLLER_EDGES, Ownership(ids));
    OnlyNoKind(storage, STORAGE_EDGES, Ownership(ids));
    OnlyNoKind(evidence, {AffectedByWebhook}, Ownership(ids));
    OnlyNoKind(Flat(s.services, ServiceEdgesF(c, s)), {SelectsPod}, Ownership(ids));
  }

  lemma RebuiltEdges(c: Text, rules: seq<CSIRule>, x: Inferred, s: Snapshot, order: seq<string>, evidence: seq<Edge>, ids: set<CanonicalID>)
    requires InferredShape(x) && EdgesIn(evidence, {AffectedByWebhook})
    ensures Only(Rebuilt(c, rules, x, s, order, evidence).edges, Ownership(ids)) ==
              Only(ToEdges(Flat(s.pods, PodEdgesF(c, s))), Ownership(ids)) + Only(ToEdges(Flat(s.workloads, WorkloadEdgesF(c, s))), Ownership(ids))
  {
    hide StorageMapsOf, Flat, StorageEdges, BuildDriverNames, BuildNodes, PodsAmong, Rebuilt, ToEdges, Only, EdgesIn, PodEdgesF,
         WorkloadEdgesF, Ownership;
    var storage := StorageEdges(StorageMapsOf(c, rules, s), rules, s, PodsAmong(BuildNodes(c, rules, x, s)), order, BuildDriverNames(c, rules, x, s));
    StorageEdgeKinds(StorageMapsOf(c, rules, s), rules, s, PodsAmong(BuildNodes(c, rules, x, s)), order, BuildDriverNames(c, rules, x, s));
    OnlyRebuilt(c, rules, x, s, order, evidence, Ownership(ids));
    OtherPassesAreNotOwnership(c, x, s, evidence, storage, ids);
    EmptyIsNeutral<EdgeKey, Edge>();
  }

  lemma ReportsAreNotOwnership(c: Text, events: seq<KubeEvent>, nodes: NodeMap, targets: seq<WorkloadTarget>, ids: set<CanonicalID>)
    ensures Only(ToEdges(Flat(events, ReportsF(c, nodes, targets))), Ownership(ids)) == map[]
    ensures EdgesIn(Flat(events, ReportsF(c, nodes, targets)), {ReportedByEvent})
  {
    hide EventID, Only, ToEdges;
    forall e | e in events
      ensures EdgesIn(ReportsF(c, nodes, targets)(e), {ReportedByEvent})
    {
      FlatEdgesIn(targets, ReportF(c, e), {ReportedByEvent});
    }
    FlatEdgesIn(events, ReportsF(c, nodes, targets), {ReportedByEvent});
    hide Flat;
    OnlyNoKind(Flat(events, ReportsF(c, nodes, targets)), {ReportedByEvent}, Ownership(ids));
  }

  lemma NoOwnershipIsLeft(g: Graph, namespace: Text, name: Text, ids: set<CanonicalID>)
    ensures Only(WorkloadsDeleted(g, namespace, name, ids).edges, Ownership(ids)) == map[]
  {
    hide StaleWorkloads, Graph.WithoutNodes;
    forall k | Ownership(ids)(k) { OwnershipIsScoped(k, ids); }
    hide WorkloadScope, Ownership;
  }

  lemma OwnershipIsScoped(k: EdgeKey, ids: set<CanonicalID>)
    requires IsOwnership(k, ids)
    ensures WorkloadScope(ids)(k)
  {
  }

  lemma PreparedEdges(g: Graph, c: Text, s: Snapshot, namespace: Text, name: Text, change: ChangeType)
    ensures Prepared(g, c, s, namespace, name, change).edges ==
            WorkloadsDeleted(g, namespace, name, WorkloadIDSet(c, Kept(c, s, namespace, name, change))).edges
  {
    hide WorkloadsDeleted, Kept, WorkloadNodes, WorkloadIDSet;
  }

  ghost predicate Updates(c: Text, s: Snapshot, namespace: Text, name: Text, change: ChangeType) {
    namespace != "" && name != "" && Kept(c, s, namespace, name, change) != []
  }

  lemma UpdatedEdges(g: Graph, c: Text, s: Snapshot, namespace: Text, name: Text, change: ChangeType, evidence: seq<Edge>)
    requires Updates(c, s, namespace, name, change) && EdgesIn(evidence, {AffectedByWebhook})
    ensures var ids := WorkloadIDSet(c, Kept(c, s, namespace, name, change));
            Only(Reconciled(g, c, s, namespace, name, change, evidence).edges, Ownership(ids)) ==
              Only(ToEdges(OwnershipEdges(c, s, ids)), Ownership(ids))
  {
    hide WorkloadsDeleted, Kept, WorkloadNodes, WorkloadIDSet, OwnershipEdges, Prepared, Only, ToEdges, Ownership, Flat, TargetsIn;
    var ids := WorkloadIDSet(c, Kept(c, s, namespace, name, change));
    var prepared := Prepared(g, c, s, namespace, name, change);
    PreparedEdges(g, c, s, namespace, name, change);
    NoOwnershipIsLeft(g, namespace, name, ids);
    var own, reports := OwnershipEdges(c, s, ids), Flat(s.events, ReportsF(c, prepared.nodes, TargetsIn(c, s.workloads, ids)));
    OnlyUnion(prepared.edges, ToEdges(RebuiltWorkloadEdges(c, s, ids, prepared.nodes, evidence)), Ownership(ids));
    OnlyAppend(own + reports, evidence, Ownership(ids));
    OnlyAppend(own, reports, Ownership(ids));
    ReportsAreNotOwnership(c, s.events, prepared.nodes, TargetsIn(c, s.workloads, ids), ids);
    EvidenceIsNotOwnership(evidence, ids);
    EmptyIsNeutral<EdgeKey, Edge>();
  }

  lemma EvidenceIsNotOwnership(evidence: seq<Edge>, ids: set<CanonicalID>)
    requires EdgesIn(evidence, {AffectedByWebhook})
    ensures Only(ToEdges(evidence), Ownership(ids)) == map[]
  {
    hide Only, ToEdges;
    OnlyNoKind(evidence, {AffectedByWebhook}, Ownership(ids));
  }

  /** Narrow equals full on ownership: from any prior state, after an update of the workloads of a name, the managed_by, owns_pod
      and controlled_by edges at their current identifiers are exactly those of a full rebuild of the snapshot. */
  lemma WorkloadUpdateMatchesRebuild(g: Graph, c: Text, rules: seq<CSIRule>, x: Inferred, s: Snapshot, order: seq<string>,
                                     full: seq<Edge>, narrow: seq<Edge>, namespace: Text, name: Text, change: ChangeType)
    requires InferredShape(x) && SR.UniquePods(c, s.pods) && Updates(c, s, namespace, name, change)
    requires EdgesIn(full, {AffectedByWebhook}) && EdgesIn(narrow, {AffectedByWebhook})
    ensures var ids := WorkloadIDSet(c, Kept(c, s, namespace, name, change));
            Only(Reconciled(g, c, s, namespace, name, change, narrow).edges, Ownership(ids)) ==
            Only(Rebuilt(c, rules, x, s, order, full).edges, Ownership(ids))
  {
    var ids := WorkloadIDSet(c, Kept(c, s, namespace, name, change));
    var r := NewChainResolver(c, s.workloads, s.replicaSets);
    UpdatedEdges(g, c, s, namespace, name, change, narrow);
    RebuiltEdges(c, rules, x, s, order, full, ids);
    PodPass(c, s, ids);
    WorkloadPass(c, s, ids);
    OwnershipParts(c, s, ids);
    hide Reconciled, Rebuilt, Only, ToEdges, Ownership, OwnershipEdges, PodOwnersF, ControlF, PodEdgesF, WorkloadEdgesF, Flat, WorkloadIDSet, Kept;
    OnlyAppend(Flat(s.pods, PodOwnersF(c, r, ids)), Flat(s.workloads, ControlF(c, r, ids, WorkloadIDSet(c, s.workloads))), Ownership(ids));
  }

  // ---- What an update leaves alone ----

  predicate IsWorkloadKind(kind: EdgeKind) {
    kind in {ManagedBy, OwnsPod, ControlledBy, ReportedByEvent, AffectedByWebhook}
  }

  lemma UpsertedKinds(c: Text, s: Snapshot, ids: set<CanonicalID>, nodes: NodeMap, evidence: seq<Edge>)
    requires EdgesIn(evidence, {AffectedByWebhook})
    ensures forall e | e in RebuiltWorkloadEdges(c, s, ids, nodes, evidence) :: IsWorkloadKind(e.kind)
  {
    hide Flat, TargetsIn, PodOwnersF, ControlF, NewChainResolver, WorkloadIDSet;
    var r := NewChainResolver(c, s.workloads, s.replicaSets);
    OwnershipKinds(c, s, r, ids);
    ReportsAreNotOwnership(c, s.events, nodes, TargetsIn(c, s.workloads, ids), ids);
  }

  lemma OwnershipKinds(c: Text, s: Snapshot, r: Resolver, ids: set<CanonicalID>)
    ensures EdgesIn(Flat(s.pods, PodOwnersF(c, r, ids)), {ManagedBy, OwnsPod})
    ensures EdgesIn(Flat(s.workloads, ControlF(c, r, ids, WorkloadIDSet(c, s.workloads))), {ControlledBy})
  {
    hide Flat, ResolveReferences, WorkloadIDSet, WorkloadID, PodID, ContainsTarget, OwnerEdges, ScopedControl;
    FlatEdgesIn(s.pods, PodOwnersF(c, r, ids), {ManagedBy, OwnsPod});
    FlatEdgesIn(s.workloads, ControlF(c, r, ids, WorkloadIDSet(c, s.workloads)), {ControlledBy});
  }

  lemma StaleAre(g: Graph, namespace: Text, name: Text, keep: set<CanonicalID>)
    ensures StaleWorkloads(g, namespace, name, keep) ==
      set id | id in g.nodes && g.nodes[id].kind == Workload && g.nodes[id].namespace == namespace && g.nodes[id].name == name && g.nodes[id].id !in keep
  {
  }

  /** Edges of other kinds change only where they touch a stale workload of the name. */
  lemma OtherEdgesSurvive(g: Graph, c: Text, s: Snapshot, namespace: Text, name: Text, change: ChangeType, evidence: seq<Edge>, k: EdgeKey)
    requires namespace != "" && name != "" && !IsWorkloadKind(k.kind) && EdgesIn(evidence, {AffectedByWebhook})
    ensures var ids := WorkloadIDSet(c, Kept(c, s, namespace, name, change));
            var stale := set id | id in g.nodes && g.nodes[id].kind == Workload && g.nodes[id].namespace == namespace && g.nodes[id].name == name
                                  && g.nodes[id].id !in ids;
            var r := Reconciled(g, c, s, namespace, name, change, evidence);
            && (k in r.edges <==> k in g.edges && k.from !in stale && k.to !in stale)
            && (k in r.edges ==> r.edges[k] == g.edges[k])
  {
    StaleAre(g, namespace, name, WorkloadIDSet(c, Kept(c, s, namespace, name, change)));
    hide Kept, WorkloadIDSet, WorkloadNodes, StaleWorkloads, RebuiltWorkloadEdges, ToEdges, ToNodes;
    var prepared := Prepared(g, c, s, namespace, name, change);
    var es := RebuiltWorkloadEdges(c, s, WorkloadIDSet(c, Kept(c, s, namespace, name, change)), prepared.nodes, evidence);
    UpsertedKinds(c, s, WorkloadIDSet(c, Kept(c, s, namespace, name, change)), prepared.nodes, evidence);
    ToEdgesMembers(es);
    ToEdgesMembers([]);
  }

  /** The edge belongs to a pod one of whose owners is updated: all its ownership edges are written again. */
  ghost predicate CoOwned(c: Text, s: Snapshot, ids: set<CanonicalID>, k: EdgeKey) {
    exists pod | pod in s.pods :: HasEdge(PodOwnersF(c, NewChainResolver(c, s.workloads, s.replicaSets), ids)(pod), k)
  }

  lemma OwnersInMap(c: Text, s: Snapshot, ids: set<CanonicalID>, k: EdgeKey)
    ensures k in ToEdges(Flat(s.pods, PodOwnersF(c, NewChainResolver(c, s.workloads, s.replicaSets), ids))) <==> CoOwned(c, s, ids, k)
  {
    var f := PodOwnersF(c, NewChainResolver(c, s.workloads, s.replicaSets), ids);
    hide ToEdges, Flat, PodOwnersF, NewChainResolver;
    HasInMap(Flat(s.pods, f), k);
    FlatMembers(s.pods, f);
  }

  lemma {:induction false} TargetsAreIn(c: Text, workloads: seq<KubeWorkload>, ids: set<CanonicalID>)
    ensures forall t | t in TargetsIn(c, workloads, ids) :: t.id in ids
  {
    if workloads != [] {
      TargetsAreIn(c, workloads[..|workloads| - 1], ids);
    }
  }

  lemma ControlIsScoped(c: Text, s: Snapshot, r: Resolver, ids: set<CanonicalID>)
    ensures forall e | e in Flat(s.workloads, ControlF(c, r, ids, WorkloadIDSet(c, s.workloads))) :: WorkloadScope(ids)(e.Triple())
  {
    hide ResolveReferences, WorkloadID, ScopedControl, Flat, WorkloadIDSet;
    FlatMembers(s.workloads, ControlF(c, r, ids, WorkloadIDSet(c, s.workloads)));
  }

  lemma ReportsAreScoped(c: Text, s: Snapshot, nodes: NodeMap, ids: set<CanonicalID>)
    ensures forall e | e in Flat(s.events, ReportsF(c, nodes, TargetsIn(c, s.workloads, ids))) :: WorkloadScope(ids)(e.Triple())
  {
    var targets := TargetsIn(c, s.workloads, ids);
    TargetsAreIn(c, s.workloads, ids);
    FlatMembers(s.events, ReportsF(c, nodes, targets));
    hide EventID, TargetsIn, Flat;
    forall v { FlatMembers(targets, ReportF(c, v)); }
  }

  lemma BlockedAreIn(events: seq<KubeEvent>, targets: seq<WorkloadTarget>, ids: set<CanonicalID>)
    requires forall t | t in targets :: t.id in ids
    ensures forall id | id in Flat(events, BlockedF(targets)) :: id in ids
  {
    FlatMembers(events, BlockedF(targets));
    forall e
      ensures forall id | id in Flat(targets, BlockF(e)) :: id in ids
    {
      FlatMembers(targets, BlockF(e));
    }
    hide Flat;
  }

  lemma EvidenceStartsAt(evidence: seq<Edge>, blocked: seq<CanonicalID>, webhooks: set<CanonicalID>, ids: set<CanonicalID>)
    requires IsEvidence(evidence, blocked, webhooks) && forall id | id in blocked :: id in ids
    ensures forall e | e in evidence :: WorkloadScope(ids)(e.Triple())
  {
    forall i | 0 <= i < |evidence|
      ensures WorkloadScope(ids)(evidence[i].Triple())
    {
      assert blocked[i] in blocked;
    }
  }

  lemma EvidenceIsScoped(c: Text, s: Snapshot, ids: set<CanonicalID>, nodes: NodeMap, evidence: seq<Edge>)
    requires IsWorkloadEvidence(evidence, c, s, ids, nodes)
    ensures forall e | e in evidence :: WorkloadScope(ids)(e.Triple())
  {
    var targets := TargetsIn(c, s.workloads, ids);
    TargetsAreIn(c, s.workloads, ids);
    hide TargetsIn, Flat, WorkloadScope, IsEvidence, BlockedF;
    BlockedAreIn(s.events, targets, ids);
    EvidenceStartsAt(evidence, Flat(s.events, BlockedF(targets)), WebhookIDs(c, s.webhookConfigs).Values * nodes.Keys, ids);
  }

  /** Of what an update writes, only the other ownership edges of the pods it owns are outside its scope. */
  lemma WrittenOutOfScope(c: Text, s: Snapshot, ids: set<CanonicalID>, nodes: NodeMap, evidence: seq<Edge>, k: EdgeKey)
    requires IsWorkloadEvidence(evidence, c, s, ids, nodes) && !WorkloadScope(ids)(k)
    ensures k in ToEdges(RebuiltWorkloadEdges(c, s, ids, nodes, evidence)) <==> CoOwned(c, s, ids, k)
  {
    var r := NewChainResolver(c, s.workloads, s.replicaSets);
    OwnersInMap(c, s, ids, k);
    ControlIsScoped(c, s, r, ids);
    ReportsAreScoped(c, s, nodes, ids);
    EvidenceIsScoped(c, s, ids, nodes, evidence);
    hide Flat, NewChainResolver, PodOwnersF, ControlF, ReportsF, WorkloadScope, ToEdges, CoOwned, IsWorkloadEvidence, WorkloadIDSet, TargetsIn;
    var a, b := Flat(s.pods, PodOwnersF(c, r, ids)), Flat(s.workloads, ControlF(c, r, ids, WorkloadIDSet(c, s.workloads)));
    var d := Flat(s.events, ReportsF(c, nodes, TargetsIn(c, s.workloads, ids)));
    HasInMap(a, k);
    HasInMap(a + b + d + evidence, k);
    assert forall e | e in a + b + d + evidence :: e in a || WorkloadScope(ids)(e.Triple());
    assert forall e | e in a :: e in a + b + d + evidence;
  }

  /** An edge outside the scope of the kept workloads, whatever its kind, survives exactly when it touches no stale workload of the name,
      unless it is another ownership edge of a pod they own: those are written again. */
  lemma OutOfScopeEdgesSurvive(g: Graph, c: Text, s: Snapshot, namespace: Text, name: Text, change: ChangeType, evidence: seq<Edge>, k: EdgeKey)
    requires namespace != "" && name != ""
    requires var ids := WorkloadIDSet(c, Kept(c, s, namespace, name, change));
             && !WorkloadScope(ids)(k)
             && (Kept(c, s, namespace, name, change) != [] ==>
                   IsWorkloadEvidence(evidence, c, s, ids, Prepared(g, c, s, namespace, name, change).nodes))
    ensures var ids := WorkloadIDSet(c, Kept(c, s, namespace, name, change));
            var r := Reconciled(g, c, s, namespace, name, change, evidence);
            var stale := set id | id in g.nodes && g.nodes[id].kind == Workload && g.nodes[id].namespace == namespace && g.nodes[id].name == name
                                  && g.nodes[id].id !in ids;
            var coOwned := Kept(c, s, namespace, name, change) != [] && CoOwned(c, s, ids, k);
            && (k in r.edges <==> (k in g.edges && k.from !in stale && k.to !in stale) || coOwned)
            && (k in r.edges && !coOwned ==> r.edges[k] == g.edges[k])
  {
    var ids, prepared := WorkloadIDSet(c, Kept(c, s, namespace, name, change)), Prepared(g, c, s, namespace, name, change);
    PreparedEdges(g, c, s, namespace, name, change);
    StaleAre(g, namespace, name, ids);
    if Kept(c, s, namespace, name, change) != [] {
      WrittenOutOfScope(c, s, ids, prepared.nodes, evidence, k);
    }
    hide Kept, WorkloadIDSet, WorkloadNodes, StaleWorkloads, RebuiltWorkloadEdges, ToEdges, ToNodes, Prepared, CoOwned, IsWorkloadEvidence,
         WorkloadScope;
  }
}
