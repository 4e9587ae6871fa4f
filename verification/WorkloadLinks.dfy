/** Reports and webhook evidence at a workload, after an update of its name from any prior graph. */
module WorkloadLinks {
  import opened Identity
  import opened GraphModel
  import opened Resources
  import opened OwnerChain
  import opened Builder
  import opened RebuildSections
  import opened SnapshotLinks
  import opened LinkPasses
  import opened Changes
  import opened Csi
  import Workloads = WorkloadReconciler
  import WR = WorkloadRefinement

  lemma {:induction false} TargetsAreTheKept(c: Text, workloads: seq<KubeWorkload>, ids: set<CanonicalID>)
    ensures forall t :: t in Workloads.TargetsIn(c, workloads, ids) <==>
      exists w | w in workloads :: WorkloadID(c, w) in ids && WorkloadObject(c, w).target == t
  {
    hide WorkloadID, WorkloadObject;
    if workloads != [] {
      var init, last := workloads[..|workloads| - 1], workloads[|workloads| - 1];
      TargetsAreTheKept(c, init, ids);
      assert workloads == init + [last];
      assert forall w :: w in workloads <==> w in init || w == last;
    }
  }

  // ---- Reports ----

  /** A listed event of the identifier is about a listed workload with the identifier, by kind and UID. */
  ghost predicate ReportsWorkload(c: Text, s: Snapshot, e: CanonicalID, w: CanonicalID) {
    exists event, x | event in s.events && x in s.workloads ::
      EventID(c, event) == e && WorkloadID(c, x) == w && event.involvedKind == x.controllerKind && event.involvedUID == x.meta.uid
  }

  lemma EventReportsHave(c: Text, s: Snapshot, nodes: NodeMap, ids: set<CanonicalID>, event: KubeEvent, k: EdgeKey)
    requires k.kind == ReportedByEvent && k.to in ids
    ensures HasEdge(Workloads.ReportsF(c, nodes, Workloads.TargetsIn(c, s.workloads, ids))(event), k) <==>
      EventID(c, event) == k.from && k.from in nodes && exists x | x in s.workloads ::
        WorkloadID(c, x) == k.to && event.involvedKind == x.controllerKind && event.involvedUID == x.meta.uid
  {
    var targets := Workloads.TargetsIn(c, s.workloads, ids);
    TargetsAreTheKept(c, s.workloads, ids);
    hide Flat, Workloads.TargetsIn, EventID, WorkloadID, HasEdge;
    FlatHas(targets, Workloads.ReportF(c, event), k);
    forall t: WorkloadTarget
      ensures HasEdge(Workloads.ReportF(c, event)(t), k) <==> event.involvedKind == t.kind && event.involvedUID == t.uid && EventID(c, event) == k.from && t.id == k.to
    {
      OneHas(NewEdge(EventID(c, event), t.id, ReportedByEvent), k);
    }
    OneHas(NewEdge(k.from, k.to, k.kind), k);
    hide Workloads.ReportF;
    if EventID(c, event) == k.from {
      if x :| x in s.workloads && WorkloadID(c, x) == k.to && event.involvedKind == x.controllerKind && event.involvedUID == x.meta.uid {
        assert WorkloadObject(c, x).target in targets;
      }
    }
  }

  lemma ReportsHave(c: Text, s: Snapshot, nodes: NodeMap, ids: set<CanonicalID>, k: EdgeKey)
    requires k.kind == ReportedByEvent && k.to in ids
    ensures HasEdge(Flat(s.events, Workloads.ReportsF(c, nodes, Workloads.TargetsIn(c, s.workloads, ids))), k) <==>
      k.from in nodes && ReportsWorkload(c, s, k.from, k.to)
  {
    hide Flat, Workloads.TargetsIn, Workloads.ReportsF, EventID, WorkloadID, HasEdge;
    FlatHas(s.events, Workloads.ReportsF(c, nodes, Workloads.TargetsIn(c, s.workloads, ids)), k);
    forall event | event in s.events { EventReportsHave(c, s, nodes, ids, event, k); }
  }

  /** What an update stores within its scope is what it upserts. */
  lemma ScopeIsUpserted(g: Graph, c: Text, s: Snapshot, namespace: Text, name: Text, evidence: seq<Edge>, k: EdgeKey)
    requires WR.Updates(c, s, namespace, name, ChangeUpsert)
    requires var ids := Workloads.WorkloadIDSet(c, Workloads.Kept(c, s, namespace, name, ChangeUpsert)); Workloads.WorkloadScope(ids)(k)
    ensures var ids, prepared := Workloads.WorkloadIDSet(c, Workloads.Kept(c, s, namespace, name, ChangeUpsert)),
                                 Workloads.Prepared(g, c, s, namespace, name, ChangeUpsert);
            var r := Workloads.Reconciled(g, c, s, namespace, name, ChangeUpsert, evidence);
            && r.nodes == prepared.nodes
            && (k in r.edges <==> HasEdge(Workloads.RebuiltWorkloadEdges(c, s, ids, prepared.nodes, evidence), k))
  {
    WR.PreparedEdges(g, c, s, namespace, name, ChangeUpsert);
    hide Workloads.Kept, Workloads.WorkloadIDSet, Workloads.WorkloadNodes, Workloads.RebuiltWorkloadEdges, Workloads.StaleWorkloads,
         Workloads.Prepared, Workloads.IsWorkloadScopedEdge, ToEdges, HasEdge;
    var ids, prepared := Workloads.WorkloadIDSet(c, Workloads.Kept(c, s, namespace, name, ChangeUpsert)),
                         Workloads.Prepared(g, c, s, namespace, name, ChangeUpsert);
    HasInMap(Workloads.RebuiltWorkloadEdges(c, s, ids, prepared.nodes, evidence), k);
    assert k !in prepared.edges;
    assert ToNodes([]) == map[] && prepared.nodes + map[] == prepared.nodes;
  }

  lemma PartsHave(c: Text, s: Snapshot, ids: set<CanonicalID>, nodes: NodeMap, evidence: seq<Edge>, k: EdgeKey)
    requires EdgesIn(evidence, {AffectedByWebhook})
    ensures var es := Workloads.RebuiltWorkloadEdges(c, s, ids, nodes, evidence);
            && (k.kind == ReportedByEvent ==>
                  (HasEdge(es, k) <==> HasEdge(Flat(s.events, Workloads.ReportsF(c, nodes, Workloads.TargetsIn(c, s.workloads, ids))), k)))
            && (k.kind == AffectedByWebhook ==> (HasEdge(es, k) <==> HasEdge(evidence, k)))
  {
    hide Flat, Workloads.TargetsIn, Workloads.PodOwnersF, Workloads.ControlF, NewChainResolver, Workloads.WorkloadIDSet, HasEdge, EdgesIn, Workloads.ReportsF;
    var r := NewChainResolver(c, s.workloads, s.replicaSets);
    WR.OwnershipKinds(c, s, r, ids);
    ReportKinds(c, s, nodes, Workloads.TargetsIn(c, s.workloads, ids));
    var pods, control := Flat(s.pods, Workloads.PodOwnersF(c, r, ids)), Flat(s.workloads, Workloads.ControlF(c, r, ids, Workloads.WorkloadIDSet(c, s.workloads)));
    var reports := Flat(s.events, Workloads.ReportsF(c, nodes, Workloads.TargetsIn(c, s.workloads, ids)));
    KindDecides(pods, {ManagedBy, OwnsPod}, k);
    KindDecides(control, {ControlledBy}, k);
    KindDecides(reports, {ReportedByEvent}, k);
    KindDecides(evidence, {AffectedByWebhook}, k);
    HasAppend(pods, control, k);
    HasAppend(pods + control, reports, k);
    HasAppend(pods + control + reports, evidence, k);
  }

  lemma ReportKinds(c: Text, s: Snapshot, nodes: NodeMap, targets: seq<WorkloadTarget>)
    ensures EdgesIn(Flat(s.events, Workloads.ReportsF(c, nodes, targets)), {ReportedByEvent})
  {
    hide Flat, EventID;
    forall event | event in s.events
      ensures EdgesIn(Workloads.ReportsF(c, nodes, targets)(event), {ReportedByEvent})
    {
      FlatEdgesIn(targets, Workloads.ReportF(c, event), {ReportedByEvent});
    }
    FlatEdgesIn(s.events, Workloads.ReportsF(c, nodes, targets), {ReportedByEvent});
  }

  lemma ListedIsUpdated(c: Text, s: Snapshot, namespace: Text, name: Text, w: CanonicalID)
    requires namespace != "" && name != "" && ListsWorkload(c, s, namespace, name, w)
    ensures WR.Updates(c, s, namespace, name, ChangeUpsert) && w in Workloads.WorkloadIDSet(c, Workloads.Kept(c, s, namespace, name, ChangeUpsert))
  {
    Workloads.KeptAreTheNamed(c, s, namespace, name, ChangeUpsert, w);
    hide Workloads.Kept, WorkloadID;
  }

  /** After an update, the reports at a listed workload of the name are exactly those of stored events that name it by kind and UID. */
  lemma UpdateShowsReportsOfWorkloads(g: Graph, c: Text, s: Snapshot, namespace: Text, name: Text, evidence: seq<Edge>, e: CanonicalID, w: CanonicalID)
    requires namespace != "" && name != "" && ListsWorkload(c, s, namespace, name, w) && EdgesIn(evidence, {AffectedByWebhook})
    ensures var r := Workloads.Reconciled(g, c, s, namespace, name, ChangeUpsert, evidence);
            EdgeKey(e, ReportedByEvent, w) in r.edges <==> e in r.nodes && ReportsWorkload(c, s, e, w)
  {
    hide Workloads.Kept, Workloads.WorkloadIDSet, Workloads.Prepared, Workloads.RebuiltWorkloadEdges, Workloads.Reconciled, ReportsWorkload, ListsWorkload,
         Flat, HasEdge, EdgesIn, WR.Updates;
    ListedIsUpdated(c, s, namespace, name, w);
    var ids, prepared := Workloads.WorkloadIDSet(c, Workloads.Kept(c, s, namespace, name, ChangeUpsert)),
                         Workloads.Prepared(g, c, s, namespace, name, ChangeUpsert);
    var k := EdgeKey(e, ReportedByEvent, w);
    ScopeIsUpserted(g, c, s, namespace, name, evidence, k);
    PartsHave(c, s, ids, prepared.nodes, evidence, k);
    ReportsHave(c, s, prepared.nodes, ids, k);
  }

  // ---- Evidence ----

  lemma BlockedHave(c: Text, s: Snapshot, ids: set<CanonicalID>, w: CanonicalID)
    requires w in ids
    ensures w in Flat(s.events, Workloads.BlockedF(Workloads.TargetsIn(c, s.workloads, ids))) <==> Blocked(c, s, w)
  {
    var targets := Workloads.TargetsIn(c, s.workloads, ids);
    TargetsAreTheKept(c, s.workloads, ids);
    hide Flat, Workloads.TargetsIn, WorkloadID;
    FlatMembers(s.events, Workloads.BlockedF(targets));
    forall event
      ensures w in Workloads.BlockedF(targets)(event) <==> event.reason in {"FailedCreate", "FailedAdmission"} && exists x | x in s.workloads ::
        WorkloadID(c, x) == w && event.meta.namespace == x.meta.namespace && event.involvedName == x.meta.name
    {
      FlatMembers(targets, Workloads.BlockF(event));
      if x :| x in s.workloads && WorkloadID(c, x) == w && event.meta.namespace == x.meta.namespace && event.involvedName == x.meta.name {
        assert WorkloadObject(c, x).target in targets;
        assert w in Workloads.BlockF(event)(WorkloadObject(c, x).target);
      }
    }
  }

  /** And its webhook evidence is stored exactly when a failed event names it and a listed webhook is stored, and points to such a webhook. */
  lemma UpdateShowsTheBlockedWorkload(g: Graph, c: Text, s: Snapshot, namespace: Text, name: Text, evidence: seq<Edge>, w: CanonicalID)
    requires namespace != "" && name != "" && ListsWorkload(c, s, namespace, name, w)
    requires var ids := Workloads.WorkloadIDSet(c, Workloads.Kept(c, s, namespace, name, ChangeUpsert));
             Workloads.IsWorkloadEvidence(evidence, c, s, ids, Workloads.Prepared(g, c, s, namespace, name, ChangeUpsert).nodes)
    ensures var r := Workloads.Reconciled(g, c, s, namespace, name, ChangeUpsert, evidence);
            var hooks := WebhookIDs(c, s.webhookConfigs).Values * r.nodes.Keys;
            && ((exists h :: EdgeKey(w, AffectedByWebhook, h) in r.edges) <==> hooks != {} && Blocked(c, s, w))
            && forall h | EdgeKey(w, AffectedByWebhook, h) in r.edges :: h in hooks
  {
    hide Workloads.Kept, Workloads.WorkloadIDSet, Workloads.Prepared, Workloads.RebuiltWorkloadEdges, Workloads.Reconciled, ListsWorkload, Blocked,
         Flat, HasEdge, EdgesIn, WR.Updates, WebhookIDs, Workloads.BlockedF, Workloads.TargetsIn, IsEvidence;
    ListedIsUpdated(c, s, namespace, name, w);
    var ids, prepared := Workloads.WorkloadIDSet(c, Workloads.Kept(c, s, namespace, name, ChangeUpsert)),
                         Workloads.Prepared(g, c, s, namespace, name, ChangeUpsert);
    var blocked := Flat(s.events, Workloads.BlockedF(Workloads.TargetsIn(c, s.workloads, ids)));
    var hooks := WebhookIDs(c, s.webhookConfigs).Values * prepared.nodes.Keys;
    BlockedHave(c, s, ids, w);
    EvidenceKinds(evidence, blocked, hooks);
    EvidenceHas(evidence, blocked, hooks, w);
    ScopeIsUpserted(g, c, s, namespace, name, evidence, EdgeKey(w, AffectedByWebhook, w));
    forall h
      ensures EdgeKey(w, AffectedByWebhook, h) in Workloads.Reconciled(g, c, s, namespace, name, ChangeUpsert, evidence).edges
        <==> HasEdge(evidence, EdgeKey(w, AffectedByWebhook, h))
    {
      ScopeIsUpserted(g, c, s, namespace, name, evidence, EdgeKey(w, AffectedByWebhook, h));
      PartsHave(c, s, ids, prepared.nodes, evidence, EdgeKey(w, AffectedByWebhook, h));
    }
  }
}
