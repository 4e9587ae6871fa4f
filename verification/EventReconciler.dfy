/** Incremental update of one event: its node and report, and all webhook evidence. */
module EventReconciler {
  import opened Identity
  import opened GraphModel
  import opened Resources
  import opened Csi
  import opened Builder
  import opened RebuildSections
  import opened Kernel
  import opened KernelLoops
  import opened Changes
  import PR = PodReconciler

  datatype EventApplyResult = EventApplyResult(applied: bool, deleted: bool, reportEdges: nat, webhookEdges: nat, deletedEdges: nat)

  datatype FoundEvent = TheEvent(event: KubeEvent) | NoEvent

  function FindEvent(events: seq<KubeEvent>, namespace: Text, name: Text): FoundEvent {
    if events == [] then NoEvent
    else if events[0].meta.namespace == namespace && events[0].meta.name == name then TheEvent(events[0])
    else FindEvent(events[1..], namespace, name)
  }

  function NamedEvent(namespace: Text, name: Text): Node -> bool {
    (n: Node) => n.kind == Event && n.namespace == namespace && n.name == name
  }

  function EvidenceKey(): EdgeKey -> bool { (k: EdgeKey) => k.kind == AffectedByWebhook }

  ghost function Cleared(g: Graph, namespace: Text, name: Text): Graph {
    g.WithoutNodes(Doomed(g, NamedEvent(namespace, name))).WithoutEdges(EvidenceKey())
  }

  ghost function WithEvent(g: Graph, c: Text, s: Snapshot, e: KubeEvent): Graph {
    g.WithNode(EventNode(c, e)).WithAll([], EventEdges(c, EventTargets(c, s), e))
  }

  /** The graph after an update of the named event; `evidence` stands for the webhooks the update happens to pick. */
  ghost function Reconciled(g: Graph, c: Text, s: Snapshot, namespace: Text, name: Text, change: ChangeType, evidence: seq<Edge>): Graph {
    var found, cleared := FindEvent(s.events, namespace, name), Cleared(g, namespace, name);
    if namespace == "" || name == "" then g
    else if change == ChangeDelete || found.NoEvent? then cleared.WithAll([], evidence)
    else WithEvent(cleared, c, s, found.event).WithAll([], evidence)
  }

  ghost predicate IsSnapshotEvidence(evidence: seq<Edge>, c: Text, s: Snapshot) {
    IsEvidence(evidence, BlockedWorkloads(s.events, WorkloadIDs(c, s.workloads)), WebhookIDs(c, s.webhookConfigs).Values)
  }

  /** Deletes the events of the name with the edges at them, one at a time. */
  method DeleteEvent(kernel: Kernel, namespace: Text, name: Text) returns (deletedEdges: nat, deletedNode: bool)
    requires kernel.Valid()
    modifies kernel.store
    ensures kernel.Valid()
    ensures kernel.View() == old(kernel.View()).WithoutNodes(Doomed(old(kernel.View()), NamedEvent(namespace, name)))
    ensures deletedEdges == |old(kernel.View()).edges| - |kernel.View().edges|
    ensures deletedNode <==> Doomed(old(kernel.View()), NamedEvent(namespace, name)) != {}
  {
    hide Kernel.Valid, Kernel.View, Graph.WithoutNodes, Graph.WithoutEdges, Swept, Doomed, NamedEvent;
    ghost var g := kernel.View();
    var listed := kernel.ListNodes();
    ghost var gone: set<CanonicalID> := {};
    var doomed := NamedEvent(namespace, name);
    NothingSwept(g, doomed);
    deletedEdges, deletedNode := 0, false;
    for i := 0 to |listed|
      invariant kernel.Valid() && kernel.View() == g.WithoutNodes(gone) && Swept(g, listed[..i], doomed, gone)
      invariant deletedEdges == |g.edges| - |kernel.View().edges| && (deletedNode <==> gone != {})
    {
      var node := listed[i];
      PrefixStep(listed, i);
      SweptStep(g, listed[..i], node, doomed, gone);
      if doomed(node) {
        var deleted := DeleteEdgesWhere(kernel, PR.AtNode(node.id));
        kernel.DeleteNode(node.id);
        PR.DropNode(g, gone, node.id);
        deletedEdges, deletedNode := deletedEdges + deleted, true;
        gone := gone + {node.id};
      }
    }
    PrefixEnds(listed);
    SweptAll(g, listed, doomed, gone);
  }

  method RebuildEvidence(kernel: Kernel, c: Text, s: Snapshot) returns (upserted: nat, ghost evidence: seq<Edge>)
    requires kernel.Valid()
    modifies kernel.store
    ensures kernel.Valid() && kernel.View() == old(kernel.View()).WithAll([], evidence)
    ensures upserted == |evidence| && IsSnapshotEvidence(evidence, c, s)
  {
    hide Kernel.Valid, Kernel.View, BlockedWorkloads, WorkloadIDs, WebhookIDs, IsEvidence, ToEdges;
    var picked := EvidencePass(BlockedWorkloads(s.events, WorkloadIDs(c, s.workloads)), WebhookIDs(c, s.webhookConfigs).Values);
    evidence := picked;
    ghost var g := kernel.View();
    UpsertEdgeList(kernel, picked);
    NoMoreNodes(g, picked);
    upserted := |picked|;
  }

  method Apply(kernel: Kernel, c: Text, s: Snapshot, namespace: Text, name: Text, change: ChangeType)
    returns (out: Outcome<EventApplyResult>, ghost evidence: seq<Edge>)
    requires kernel.Valid()
    modifies kernel.store
    ensures kernel.Valid() && kernel.View() == Reconciled(old(kernel.View()), c, s, namespace, name, change, evidence)
    ensures out.Failed? <==> namespace == "" || name == ""
    ensures !out.Failed? ==> IsSnapshotEvidence(evidence, c, s) && out.result.webhookEdges == |evidence|
    ensures out.Done? ==> (out.result.deleted <==> change == ChangeDelete || FindEvent(s.events, namespace, name).NoEvent?)
    ensures out.Done? ==> out.result.deletedEdges == |old(kernel.View()).edges| - |Cleared(old(kernel.View()), namespace, name).edges|
    ensures out.Done? && out.result.deleted ==>
      && out.result.reportEdges == 0
      && (out.result.applied <==> Doomed(old(kernel.View()), NamedEvent(namespace, name)) != {} || out.result.deletedEdges > 0 || |evidence| > 0)
    ensures out.Done? && !out.result.deleted ==>
      out.result.applied && out.result.reportEdges == |EventEdges(c, EventTargets(c, s), FindEvent(s.events, namespace, name).event)|
  {
    hide Kernel.Valid, Kernel.View, FindEvent, IsSnapshotEvidence, EventTargets, EventNode, ToEdges, EventEdges;
    evidence := [];
    if namespace == "" || name == "" {
      return Failed("event reconcile requires namespace and name"), [];
    }
    var deletedEventEdges, deletedNode := DeleteEvent(kernel, namespace, name);
    var deletedEvidence := DeleteEdgesWhere(kernel, EvidenceKey());
    var found := FindEvent(s.events, namespace, name);
    var webhookEdges;
    if change == ChangeDelete || found.NoEvent? {
      webhookEdges, evidence := RebuildEvidence(kernel, c, s);
      var applied := deletedNode || deletedEventEdges > 0 || deletedEvidence > 0 || webhookEdges > 0;
      return Done(EventApplyResult(applied, true, 0, webhookEdges, deletedEventEdges + deletedEvidence)), evidence;
    }
    ghost var cleared := kernel.View();
    kernel.UpsertNode(EventNode(c, found.event));
    var reports := EventEdges(c, EventTargets(c, s), found.event);
    NoMoreNodes(kernel.View(), reports);
    UpsertEdgeList(kernel, reports);
    webhookEdges, evidence := RebuildEvidence(kernel, c, s);
    return Done(EventApplyResult(true, false, |reports|, webhookEdges, deletedEventEdges + deletedEvidence)), evidence;
  }

  // ---- Agreement with a full rebuild ----

  lemma SnapshotEvidenceKinds(evidence: seq<Edge>, c: Text, s: Snapshot)
    requires IsSnapshotEvidence(evidence, c, s)
    ensures EdgesIn(evidence, {AffectedByWebhook})
  {
    hide BlockedWorkloads, WorkloadIDs, WebhookIDs;
    EvidenceKinds(evidence, BlockedWorkloads(s.events, WorkloadIDs(c, s.workloads)), WebhookIDs(c, s.webhookConfigs).Values);
  }

  lemma NoEvidenceLeft(g: Graph, namespace: Text, name: Text)
    ensures Only(Cleared(g, namespace, name).edges, EvidenceKey()) == map[]
  {
    hide Doomed;
  }

  lemma EventAddsNoEvidence(g: Graph, c: Text, s: Snapshot, e: KubeEvent)
    requires Only(g.edges, EvidenceKey()) == map[]
    ensures Only(WithEvent(g, c, s, e).edges, EvidenceKey()) == map[]
  {
    hide EventTargets, EventNode, ToEdges, ToNodes, Only, EventID;
    var es := EventEdges(c, EventTargets(c, s), e);
    OnlyUnion(g.edges, ToEdges(es), EvidenceKey());
    OnlyNone(es, EvidenceKey());
  }

  /** After an update the webhook evidence is exactly what was picked, and the picks obey the rule a full rebuild obeys. */
  lemma UpdatedEvidence(g: Graph, c: Text, s: Snapshot, namespace: Text, name: Text, change: ChangeType, evidence: seq<Edge>)
    requires namespace != "" && name != "" && IsSnapshotEvidence(evidence, c, s)
    ensures Only(Reconciled(g, c, s, namespace, name, change, evidence).edges, EvidenceKey()) == ToEdges(evidence)
  {
    hide Cleared, WithEvent, FindEvent, IsSnapshotEvidence, ToEdges, ToNodes, Only;
    var found, cleared := FindEvent(s.events, namespace, name), Cleared(g, namespace, name);
    SnapshotEvidenceKinds(evidence, c, s);
    OnlyAll(evidence, EvidenceKey());
    assert map[] + ToEdges(evidence) == ToEdges(evidence);
    NoEvidenceLeft(g, namespace, name);
    if found.TheEvent? {
      EventAddsNoEvidence(cleared, c, s, found.event);
      OnlyUnion(WithEvent(cleared, c, s, found.event).edges, ToEdges(evidence), EvidenceKey());
    }
    OnlyUnion(cleared.edges, ToEdges(evidence), EvidenceKey());
  }

  lemma OtherPassesAreNoEvidence(c: Text, x: Inferred, s: Snapshot, storage: seq<Edge>)
    requires InferredShape(x) && EdgesIn(storage, STORAGE_EDGES)
    ensures Only(ToEdges(Flat(s.pods, ImageEdgesF(c))), EvidenceKey()) == map[]
    ensures Only(ToEdges(x.helmEdges), EvidenceKey()) == map[]
    ensures Only(ToEdges(Flat(s.events, EventEdgesF(c, s))), EvidenceKey()) == map[]
    ensures Only(ToEdges(Flat(s.pods, PodEdgesF(c, s))), EvidenceKey()) == map[]
    ensures Only(ToEdges(Flat(s.roleBindings, RoleBindingEdgesF(c, s))), EvidenceKey()) == map[]
    ensures Only(ToEdges(Flat(s.clusterRoleBindings, ClusterRoleBindingEdgesF(c, s))), EvidenceKey()) == map[]
    ensures Only(ToEdges(Flat(s.workloads, WorkloadEdgesF(c, s))), EvidenceKey()) == map[]
    ensures Only(ToEdges(x.controllerEdges), EvidenceKey()) == map[] && Only(ToEdges(storage), EvidenceKey()) == map[]
    ensures Only(ToEdges(Flat(s.services, ServiceEdgesF(c, s))), EvidenceKey()) == map[]
  {
    PassKinds(c, s);
    hide Flat, ToEdges, Only, EdgesIn, ImageEdgesF, EventEdgesF, PodEdgesF, RoleBindingEdgesF, ClusterRoleBindingEdgesF, WorkloadEdgesF,
         ServiceEdgesF;
    OnlyNoKind(Flat(s.pods, ImageEdgesF(c)), {UsesImage}, EvidenceKey());
    OnlyNoKind(x.helmEdges, HELM_EDGES, EvidenceKey());
    OnlyNoKind(Flat(s.events, EventEdgesF(c, s)), {ReportedByEvent}, EvidenceKey());
    OnlyNoKind(Flat(s.pods, PodEdgesF(c, s)), POD_EDGES, EvidenceKey());
    OnlyNoKind(Flat(s.roleBindings, RoleBindingEdgesF(c, s)), {BoundByRoleBinding}, EvidenceKey());
    OnlyNoKind(Flat(s.clusterRoleBindings, ClusterRoleBindingEdgesF(c, s)), {BoundByRoleBinding}, EvidenceKey());
    OnlyNoKind(Flat(s.workloads, WorkloadEdgesF(c, s)), {ControlledBy}, EvidenceKey());
    OnlyNoKind(x.controllerEdges, CONTROLLER_EDGES, EvidenceKey());
    OnlyNoKind(storage, STORAGE_EDGES, EvidenceKey());
    OnlyNoKind(Flat(s.services, ServiceEdgesF(c, s)), {SelectsPod}, EvidenceKey());
  }

  lemma RebuiltEvidence(c: Text, rules: seq<CSIRule>, x: Inferred, s: Snapshot, order: seq<string>, evidence: seq<Edge>)
    requires InferredShape(x) && IsSnapshotEvidence(evidence, c, s)
    ensures Only(Rebuilt(c, rules, x, s, order, evidence).edges, EvidenceKey()) == ToEdges(evidence)
  {
    hide StorageMapsOf, Flat, StorageEdges, BuildDriverNames, BuildNodes, PodsAmong, Rebuilt, ToEdges, Only, EdgesIn, IsSnapshotEvidence, EvidenceKey;
    var storage := StorageEdges(StorageMapsOf(c, rules, s), rules, s, PodsAmong(BuildNodes(c, rules, x, s)), order, BuildDriverNames(c, rules, x, s));
    StorageEdgeKinds(StorageMapsOf(c, rules, s), rules, s, PodsAmong(BuildNodes(c, rules, x, s)), order, BuildDriverNames(c, rules, x, s));
    OnlyRebuilt(c, rules, x, s, order, evidence, EvidenceKey());
    OtherPassesAreNoEvidence(c, x, s, storage);
    SnapshotEvidenceKinds(evidence, c, s);
    AllEvidence(evidence);
    EmptyIsNeutral<EdgeKey, Edge>();
  }

  lemma AllEvidence(evidence: seq<Edge>)
    requires EdgesIn(evidence, {AffectedByWebhook})
    ensures Only(ToEdges(evidence), EvidenceKey()) == ToEdges(evidence)
  {
    hide Only, ToEdges;
    OnlyAll(evidence, EvidenceKey());
  }

  /** Picks by the same rule block the same workloads: only the webhook they name may differ. */
  lemma EvidenceBlocksTheSame(a: seq<Edge>, b: seq<Edge>, c: Text, s: Snapshot, w: CanonicalID)
    requires IsSnapshotEvidence(a, c, s) && IsSnapshotEvidence(b, c, s)
    ensures (exists k | k in ToEdges(a) :: k.from == w) <==> exists k | k in ToEdges(b) :: k.from == w
  {
    EvidenceFollows(a, b, c, s, w);
    EvidenceFollows(b, a, c, s, w);
  }

  lemma EvidenceFollows(a: seq<Edge>, b: seq<Edge>, c: Text, s: Snapshot, w: CanonicalID)
    requires IsSnapshotEvidence(a, c, s) && IsSnapshotEvidence(b, c, s)
    ensures (exists k | k in ToEdges(a) :: k.from == w) ==> exists k | k in ToEdges(b) :: k.from == w
  {
    hide BlockedWorkloads, WorkloadIDs, WebhookIDs;
    ToEdgesMembers(a);
    ToEdgesMembers(b);
    hide ToEdges;
    if k :| k in ToEdges(a) && k.from == w {
      var i :| 0 <= i < |a| && a[i] == ToEdges(a)[k];
      assert b[i].from == w && b[i] in b;
      assert b[i].Triple() in ToEdges(b);
    }
  }

  /** Narrow and full agree on webhook evidence up to the arbitrary webhook: the same workloads are affected after either, and where
      the picks coincide the edges do. */
  lemma EventUpdateMatchesRebuild(g: Graph, c: Text, rules: seq<CSIRule>, x: Inferred, s: Snapshot, order: seq<string>,
                                  full: seq<Edge>, narrow: seq<Edge>, namespace: Text, name: Text, change: ChangeType, w: CanonicalID)
    requires namespace != "" && name != "" && InferredShape(x) && IsSnapshotEvidence(full, c, s) && IsSnapshotEvidence(narrow, c, s)
    ensures var a := Only(Reconciled(g, c, s, namespace, name, change, narrow).edges, EvidenceKey());
            var b := Only(Rebuilt(c, rules, x, s, order, full).edges, EvidenceKey());
            && ((exists k | k in a :: k.from == w) <==> exists k | k in b :: k.from == w)
            && (full == narrow ==> a == b)
  {
    hide Reconciled, Rebuilt, Only, ToEdges, IsSnapshotEvidence;
    UpdatedEvidence(g, c, s, namespace, name, change, narrow);
    RebuiltEvidence(c, rules, x, s, order, full);
    EvidenceBlocksTheSame(narrow, full, c, s, w);
  }
}
