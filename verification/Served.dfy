/** What the served graph says after an event: the links of the event's category, as the snapshot collected for it has them. */
module Served {
  import opened Identity
  import opened Strings
  import opened GraphModel
  import opened Resources
  import opened OwnerChain
  import opened OwnerReach
  import opened Csi
  import opened Builder
  import opened RebuildSections
  import opened SnapshotLinks
  import opened LinkPasses
  import opened PodLinks
  import opened IdentityLinks
  import opened StorageLinks
  import opened EventLinks
  import opened WorkloadLinks
  import opened GraphMeaning
  import opened Changes
  import opened Runs
  import opened Manager
  import SR = StorageRefinement
  import PR = PodRefinement
  import Pods = PodReconciler
  import Services = ServiceReconciler
  import Workloads = WorkloadReconciler
  import Controllers = ControllerRules
  import Storage = StorageReconciler
  import Identities = IdentityReconciler
  import Events = EventReconciler
  import EdgeTyping

  /** The run so far, gone on with the step planned for the event, on a snapshot collected for it. */
  ghost predicate JustApplied(cfg: Config, before: seq<Step>, steps: seq<Step>, event: ChangeEvent, s: Snapshot) {
    InfersWell(cfg) && IsRun(cfg, steps) && Continued(before, steps, StrategyForEvent(event), s, event)
  }

  /** The kind an event names, in lower case and trimmed. */
  function KindOf(event: ChangeEvent): string { ToLower(TrimSpace(event.kind)) }

  const STORAGE_WORDS := {"storage", "pv", "pvc", "persistentvolume", "persistentvolumeclaim"}
  const IDENTITY_WORDS := {"identity/security", "identity", "security", "serviceaccount", "rolebinding", "clusterrolebinding"}
  const WORKLOAD_WORDS := {"workload", "deployment", "statefulset", "daemonset", "job", "replicaset"}

  lemma PlannedFor(event: ChangeEvent)
    ensures KindOf(event) in STORAGE_WORDS ==> StrategyForEvent(event) == StorageNarrow
    ensures KindOf(event) in IDENTITY_WORDS ==> StrategyForEvent(event) == IdentitySecurityNarrow
    ensures KindOf(event) in WORKLOAD_WORDS ==> StrategyForEvent(event) == WorkloadNarrow
    ensures KindOf(event) == "pod" ==> StrategyForEvent(event) == PodNarrow
    ensures KindOf(event) == "service" ==> StrategyForEvent(event) == ServiceNarrow
    ensures KindOf(event) == "event" ==> StrategyForEvent(event) == EventNarrow
  {
    hide ToLower, TrimSpace;
  }

  lemma LastStep(cfg: Config, before: seq<Step>, steps: seq<Step>, event: ChangeEvent, s: Snapshot) returns (g: Graph, step: Step)
    requires JustApplied(cfg, before, steps, event, s)
    ensures StepFor(StrategyForEvent(event), s, event, step) && g.Valid()
    ensures Allowed(cfg, g, step) && Run(cfg, steps) == After(cfg, g, step)
  {
    hide Allowed, After, StrategyForEvent, StepFor, InfersWell, PairedKeys, Imaged;
    step := steps[|before|];
    assert steps[..|steps| - 1] == before;
    g := Run(cfg, before);
    RunKeeps(cfg, before);
  }

  lemma InferredKinds(cfg: Config, s: Snapshot)
    requires InfersWell(cfg)
    ensures InferredShape(cfg.infer(s)) && EdgesIn(cfg.infer(s).controllerEdges, CONTROLLER_EDGES)
  {
  }

  // ---- By category ----

  lemma StorageStepShows(cfg: Config, g: Graph, s: Snapshot, step: Step, k: EdgeKey)
    requires g.Valid() && step.StorageStep? && step.snapshot == s && Allowed(cfg, g, step) && k.kind in STORAGE_EDGES
    requires SR.UniquePods(cfg.cluster, s.pods) && SR.SeparateDrivers(s) && StorageNamesIdentify(cfg.cluster, s)
    ensures k in After(cfg, g, step).edges <==> StorageSays(cfg.cluster, cfg.rules, s, k)
  {
    hide StorageSays, SR.UniquePods, SR.SeparateDrivers, StorageNamesIdentify, Storage.Reconciled, IsEnumeration, CSIDriverIDs;
    UpdateShowsStorageLinks(g, cfg.cluster, cfg.rules, s, step.order, k);
  }

  /** After a storage event every storage link is as the snapshot says. */
  lemma StorageEventsShowStorage(cfg: Config, before: seq<Step>, steps: seq<Step>, event: ChangeEvent, s: Snapshot, k: EdgeKey)
    requires JustApplied(cfg, before, steps, event, s) && KindOf(event) in STORAGE_WORDS
    requires SR.UniquePods(cfg.cluster, s.pods) && SR.SeparateDrivers(s) && StorageNamesIdentify(cfg.cluster, s) && k.kind in STORAGE_EDGES
    ensures k in Run(cfg, steps).edges <==> StorageSays(cfg.cluster, cfg.rules, s, k)
  {
    hide Run, Allowed, After, StrategyForEvent, KindOf, StorageSays, SR.UniquePods, SR.SeparateDrivers, StorageNamesIdentify, InfersWell, IsRun, Continued;
    var g, step := LastStep(cfg, before, steps, event, s);
    PlannedFor(event);
    StorageStepShows(cfg, g, s, step, k);
  }

  /** After an identity event the bindings bind their subjects, and the pods run as the accounts they name. */
  lemma IdentityEventsShowBindings(cfg: Config, before: seq<Step>, steps: seq<Step>, event: ChangeEvent, s: Snapshot, a: CanonicalID, b: CanonicalID)
    requires JustApplied(cfg, before, steps, event, s)
    requires KindOf(event) in IDENTITY_WORDS
    requires PodNamesIdentify(cfg.cluster, s) && BindingNamesIdentify(cfg.cluster, s)
    ensures EdgeKey(a, BoundByRoleBinding, b) in Run(cfg, steps).edges <==> Binds(cfg.cluster, s, a, b)
    ensures EdgeKey(a, UsesServiceAccount, b) in Run(cfg, steps).edges <==> RunsAs(cfg.cluster, s, a, b)
  {
    hide Run, Allowed, After, StrategyForEvent, KindOf, Binds, RunsAs, PodNamesIdentify, BindingNamesIdentify, InfersWell, IsRun, Continued;
    var g, step := LastStep(cfg, before, steps, event, s);
    PlannedFor(event);
    IdentityStepShows(cfg, g, s, a, b);
  }

  lemma IdentityStepShows(cfg: Config, g: Graph, s: Snapshot, a: CanonicalID, b: CanonicalID)
    requires g.Valid() && PodNamesIdentify(cfg.cluster, s) && BindingNamesIdentify(cfg.cluster, s)
    ensures EdgeKey(a, BoundByRoleBinding, b) in After(cfg, g, IdentityStep(s)).edges <==> Binds(cfg.cluster, s, a, b)
    ensures EdgeKey(a, UsesServiceAccount, b) in After(cfg, g, IdentityStep(s)).edges <==> RunsAs(cfg.cluster, s, a, b)
  {
    hide Binds, RunsAs, PodNamesIdentify, BindingNamesIdentify, Identities.Reconciled;
    UpdateBindsTheSubjects(g, cfg.cluster, s, a, b);
  }

  lemma ControllersKeep(g: Graph, inferred: seq<Edge>, k: EdgeKey)
    requires EdgesIn(inferred, CONTROLLER_EDGES) && k.kind !in CONTROLLER_EDGES
    ensures k in Controllers.Reconciled(g, inferred).edges <==> k in g.edges
  {
    NotAmong(inferred, CONTROLLER_EDGES, k);
    hide ToEdges, ToNodes;
  }

  lemma PodStepShows(cfg: Config, g: Graph, s: Snapshot, namespace: Text, name: Text, change: ChangeType, k: EdgeKey)
    requires InfersWell(cfg) && PR.Updates(s, namespace, name, change) && k.kind in POD_LINKS
    requires PodNamesIdentify(cfg.cluster, s) && PR.DistinctPods(cfg.cluster, s.pods)
    requires (if k.kind == SelectsPod then k.to else k.from) == PodID(cfg.cluster, Pods.FindPod(s.pods, namespace, name).pod)
    ensures k in After(cfg, g, PodStep(s, namespace, name, change)).edges <==> PodSays(cfg.cluster, s, k)
  {
    hide PodSays, PodNamesIdentify, PR.DistinctPods, PR.Updates, PodID, Pods.FindPod, Pods.Reconciled, Controllers.Reconciled, InfersWell, EdgesIn,
         InferredShape, After, Allowed;
    InferredKinds(cfg, s);
    AfterPod(cfg, g, s, namespace, name, change);
    UpdateShowsPodLinks(g, cfg.cluster, s, namespace, name, change, k);
    ControllersKeep(Pods.Reconciled(g, cfg.cluster, s, namespace, name, change), cfg.infer(s).controllerEdges, k);
  }

  /** After a pod event the pod's links are as the snapshot says. */
  lemma PodEventsShowThePod(cfg: Config, before: seq<Step>, steps: seq<Step>, event: ChangeEvent, s: Snapshot, k: EdgeKey)
    requires JustApplied(cfg, before, steps, event, s) && KindOf(event) == "pod" && PR.Updates(s, event.namespace, event.name, event.change)
    requires PodNamesIdentify(cfg.cluster, s) && PR.DistinctPods(cfg.cluster, s.pods) && k.kind in POD_LINKS
    requires (if k.kind == SelectsPod then k.to else k.from) == PodID(cfg.cluster, Pods.FindPod(s.pods, event.namespace, event.name).pod)
    ensures k in Run(cfg, steps).edges <==> PodSays(cfg.cluster, s, k)
  {
    hide Run, Allowed, After, StrategyForEvent, PodSays, PodNamesIdentify, PR.DistinctPods, PR.Updates, PodID, Pods.FindPod, InfersWell, IsRun, Continued;
    var g, step := LastStep(cfg, before, steps, event, s);
    PlannedFor(event);
    PodStepShows(cfg, g, s, event.namespace, event.name, event.change, k);
  }

  lemma ServiceStepShows(cfg: Config, g: Graph, s: Snapshot, namespace: Text, name: Text, change: ChangeType, p: CanonicalID)
    requires Services.Updates(s, namespace, name, change)
    ensures var v := Services.FindService(s.services, namespace, name).service;
            var r := After(cfg, g, ServiceStep(s, namespace, name, change));
            EdgeKey(ServiceID(cfg.cluster, v), SelectsPod, p) in r.edges <==> PodSelected(cfg.cluster, s, v, p)
  {
    hide Services.FindService, ServiceID, PodSelected, Services.Reconciled;
    UpdateSelectsExactlyTheMatching(g, cfg.cluster, s, namespace, name, change, p);
  }

  /** After a service event the service selects the pods its selector asks for. */
  lemma ServiceEventsShowTheSelection(cfg: Config, before: seq<Step>, steps: seq<Step>, event: ChangeEvent, s: Snapshot, p: CanonicalID)
    requires JustApplied(cfg, before, steps, event, s) && KindOf(event) == "service" && Services.Updates(s, event.namespace, event.name, event.change)
    ensures var v := Services.FindService(s.services, event.namespace, event.name).service;
            EdgeKey(ServiceID(cfg.cluster, v), SelectsPod, p) in Run(cfg, steps).edges <==> PodSelected(cfg.cluster, s, v, p)
  {
    hide Run, Allowed, After, StrategyForEvent, Services.FindService, ServiceID, PodSelected, InfersWell, IsRun, Continued;
    var g, step := LastStep(cfg, before, steps, event, s);
    PlannedFor(event);
    ServiceStepShows(cfg, g, s, event.namespace, event.name, event.change, p);
  }

  lemma WorkloadStepShows(cfg: Config, g: Graph, s: Snapshot, namespace: Text, name: Text, evidence: seq<Edge>, w: CanonicalID, k: EdgeKey)
    requires InfersWell(cfg) && namespace != "" && name != "" && ListsWorkload(cfg.cluster, s, namespace, name, w)
    requires SR.UniquePods(cfg.cluster, s.pods) && ToldApart(NewChainResolver(cfg.cluster, s.workloads, s.replicaSets))
    requires k.kind in OWNERSHIP && IsAbout(k, w) && Allowed(cfg, g, WorkloadStep(s, namespace, name, ChangeUpsert, evidence))
    ensures k in After(cfg, g, WorkloadStep(s, namespace, name, ChangeUpsert, evidence)).edges <==> OwnershipSays(cfg.cluster, s, k)
  {
    hide Allowed, After, SR.UniquePods, ToldApart, NewChainResolver, OwnershipSays, Workloads.Reconciled, Controllers.Reconciled, InfersWell, EdgesIn,
         ListsWorkload, InferredShape, IsAbout;
    var c := cfg.cluster;
    InferredKinds(cfg, s);
    OwnershipIsNoRule(k);
    AllowedEvidence(cfg, g, s, namespace, name, evidence, w);
    AfterWorkloads(cfg, g, s, namespace, name, evidence);
    UpdateLinksExactlyTheOwners(g, c, s, namespace, name, ChangeUpsert, evidence, w, k);
    ControllersKeep(Workloads.Reconciled(g, c, s, namespace, name, ChangeUpsert, evidence), cfg.infer(s).controllerEdges, k);
  }

  lemma OwnershipIsNoRule(k: EdgeKey)
    requires k.kind in OWNERSHIP
    ensures k.kind !in CONTROLLER_EDGES
  {
  }

  lemma AfterWorkloads(cfg: Config, g: Graph, s: Snapshot, namespace: Text, name: Text, evidence: seq<Edge>)
    ensures After(cfg, g, WorkloadStep(s, namespace, name, ChangeUpsert, evidence)) ==
      Controllers.Reconciled(Workloads.Reconciled(g, cfg.cluster, s, namespace, name, ChangeUpsert, evidence), cfg.infer(s).controllerEdges)
  {
    hide Workloads.Reconciled, Controllers.Reconciled;
  }

  lemma AllowedEvidence(cfg: Config, g: Graph, s: Snapshot, namespace: Text, name: Text, evidence: seq<Edge>, w: CanonicalID)
    requires namespace != "" && name != "" && ListsWorkload(cfg.cluster, s, namespace, name, w)
    requires Allowed(cfg, g, WorkloadStep(s, namespace, name, ChangeUpsert, evidence))
    ensures EdgesIn(evidence, {AffectedByWebhook})
  {
    hide Workloads.Kept, Workloads.Prepared, EdgesIn, Workloads.IsWorkloadEvidence, WorkloadID;
    var c := cfg.cluster;
    Workloads.KeptAreTheNamed(c, s, namespace, name, ChangeUpsert, w);
    var kept := Workloads.Kept(c, s, namespace, name, ChangeUpsert);
    assert kept != [] by { assert w !in Workloads.WorkloadIDSet(c, []); }
    hide Workloads.WorkloadIDSet;
    WorkloadEvidenceKinds(evidence, c, s, Workloads.WorkloadIDSet(c, kept), Workloads.Prepared(g, c, s, namespace, name, ChangeUpsert).nodes);
  }

  /** After a workload event the ownership of each workload of the name is as the references say. */
  lemma WorkloadEventsShowOwnership(cfg: Config, before: seq<Step>, steps: seq<Step>, event: ChangeEvent, s: Snapshot, w: CanonicalID, k: EdgeKey)
    requires JustApplied(cfg, before, steps, event, s) && KindOf(event) in WORKLOAD_WORDS && event.change == ChangeUpsert
    requires event.namespace != "" && event.name != "" && ListsWorkload(cfg.cluster, s, event.namespace, event.name, w)
    requires SR.UniquePods(cfg.cluster, s.pods) && ToldApart(NewChainResolver(cfg.cluster, s.workloads, s.replicaSets))
    requires k.kind in OWNERSHIP && IsAbout(k, w)
    ensures k in Run(cfg, steps).edges <==> OwnershipSays(cfg.cluster, s, k)
  {
    hide Run, Allowed, After, StrategyForEvent, SR.UniquePods, ToldApart, NewChainResolver, OwnershipSays, ListsWorkload, InfersWell, IsRun, Continued;
    var g, step := LastStep(cfg, before, steps, event, s);
    PlannedFor(event);
    WorkloadStepShows(cfg, g, s, event.namespace, event.name, step.evidence, w, k);
  }

  lemma WorkloadEvidenceKinds(evidence: seq<Edge>, c: Text, s: Snapshot, ids: set<CanonicalID>, nodes: NodeMap)
    requires Workloads.IsWorkloadEvidence(evidence, c, s, ids, nodes)
    ensures EdgesIn(evidence, {AffectedByWebhook})
  {
    hide Flat, WebhookIDs, Workloads.TargetsIn;
    EvidenceKinds(evidence, Flat(s.events, Workloads.BlockedF(Workloads.TargetsIn(c, s.workloads, ids))), WebhookIDs(c, s.webhookConfigs).Values * nodes.Keys);
  }

  /** After an event of an event, webhook evidence is stored for exactly the workloads that failed events name. */
  lemma EventsShowTheBlocked(cfg: Config, before: seq<Step>, steps: seq<Step>, event: ChangeEvent, s: Snapshot, w: CanonicalID)
    requires JustApplied(cfg, before, steps, event, s) && KindOf(event) == "event" && event.namespace != "" && event.name != ""
    requires WorkloadNamesIdentify(cfg.cluster, s)
    ensures (exists h :: EdgeKey(w, AffectedByWebhook, h) in Run(cfg, steps).edges) <==> s.webhookConfigs != [] && Blocked(cfg.cluster, s, w)
  {
    hide Run, Allowed, After, StrategyForEvent, KindOf, Blocked, WorkloadNamesIdentify, InfersWell, IsRun, Continued;
    var g, step := LastStep(cfg, before, steps, event, s);
    PlannedFor(event);
    EventStepShows(cfg, g, s, event.namespace, event.name, event.change, step.evidence, w);
  }

  lemma EventStepShows(cfg: Config, g: Graph, s: Snapshot, namespace: Text, name: Text, change: ChangeType, evidence: seq<Edge>, w: CanonicalID)
    requires namespace != "" && name != "" && WorkloadNamesIdentify(cfg.cluster, s) && Allowed(cfg, g, EventStep(s, namespace, name, change, evidence))
    ensures (exists h :: EdgeKey(w, AffectedByWebhook, h) in After(cfg, g, EventStep(s, namespace, name, change, evidence)).edges)
      <==> s.webhookConfigs != [] && Blocked(cfg.cluster, s, w)
  {
    hide Blocked, WorkloadNamesIdentify, Events.Reconciled, Rebuilt, Events.IsSnapshotEvidence;
    var x := Inferred([], [], []);
    EvidenceShowsTheBlocked(g, cfg.cluster, [], x, s, [], evidence, namespace, name, change, w);
  }

  // ---- After a rebuild ----

  /** After a full rebuild every link is as the snapshot says. */
  lemma RebuildsShowEverything(cfg: Config, steps: seq<Step>, s: Snapshot, k: EdgeKey)
    requires InfersWell(cfg) && IsRun(cfg, steps) && Restarted(steps, s)
    requires var c := cfg.cluster;
             && PodNamesIdentify(c, s) && BindingNamesIdentify(c, s) && StorageNamesIdentify(c, s) && UIDsIdentify(c, s)
             && SR.SeparateDrivers(s) && ToldApart(NewChainResolver(c, s.workloads, s.replicaSets))
    ensures var c, edges := cfg.cluster, Run(cfg, steps).edges;
            && (k.kind in POD_LINKS ==> (k in edges <==> PodSays(c, s, k)))
            && (k.kind in STORAGE_EDGES ==> (k in edges <==> StorageSays(c, cfg.rules, s, k)))
            && (k.kind in OWNERSHIP ==> (k in edges <==> OwnershipSays(c, s, k)))
            && (k.kind == BoundByRoleBinding ==> (k in edges <==> Binds(c, s, k.from, k.to)))
            && (k.kind == ReportedByEvent ==> (k in edges <==> Reports(c, s, k.from, k.to)))
  {
    hide Run, IsRun, InfersWell, Rebuilt, PodSays, StorageSays, OwnershipSays, Binds, Reports, PodNamesIdentify, BindingNamesIdentify, StorageNamesIdentify,
         UIDsIdentify, SR.SeparateDrivers, ToldApart, NewChainResolver, InferredShape, IsEnumeration, CSIDriverIDs, EdgesIn;
    RestartedGraph(cfg, steps, s);
    RebuildSays(cfg.cluster, cfg.rules, cfg.infer(s), s, steps[0].order, steps[0].evidence, k);
  }

  lemma RebuildSays(c: Text, rules: seq<CSIRule>, x: Inferred, s: Snapshot, order: seq<string>, evidence: seq<Edge>, k: EdgeKey)
    requires InferredShape(x) && EdgesIn(evidence, {AffectedByWebhook}) && IsEnumeration(order, CSIDriverIDs(c, rules, s))
    requires PodNamesIdentify(c, s) && BindingNamesIdentify(c, s) && StorageNamesIdentify(c, s) && UIDsIdentify(c, s)
    requires SR.SeparateDrivers(s) && ToldApart(NewChainResolver(c, s.workloads, s.replicaSets))
    ensures var edges := Rebuilt(c, rules, x, s, order, evidence).edges;
            && (k.kind in POD_LINKS ==> (k in edges <==> PodSays(c, s, k)))
            && (k.kind in STORAGE_EDGES ==> (k in edges <==> StorageSays(c, rules, s, k)))
            && (k.kind in OWNERSHIP ==> (k in edges <==> OwnershipSays(c, s, k)))
            && (k.kind == BoundByRoleBinding ==> (k in edges <==> Binds(c, s, k.from, k.to)))
            && (k.kind == ReportedByEvent ==> (k in edges <==> Reports(c, s, k.from, k.to)))
  {
    hide Rebuilt, PodSays, StorageSays, OwnershipSays, Binds, Reports, PodNamesIdentify, BindingNamesIdentify, StorageNamesIdentify, UIDsIdentify,
         SR.SeparateDrivers, SR.UniquePods, ToldApart, NewChainResolver, InferredShape, IsEnumeration, CSIDriverIDs, EdgesIn;
    PodsAreUnique(c, s);
    if k.kind in POD_LINKS { RebuildShowsPodLinks(c, rules, x, s, order, evidence, k); }
    if k.kind in STORAGE_EDGES { RebuildShowsStorageLinks(c, rules, x, s, order, evidence, k); }
    if k.kind in OWNERSHIP { RebuildShowsOwnership(c, rules, x, s, order, evidence, k); }
    if k.kind == BoundByRoleBinding { RebuildBindsTheSubjects(c, rules, x, s, order, evidence, k.from, k.to); }
    if k.kind == ReportedByEvent { RebuildShowsReports(c, rules, x, s, order, evidence, k.from, k.to); }
  }

  lemma RestartedGraph(cfg: Config, steps: seq<Step>, s: Snapshot)
    requires InfersWell(cfg) && IsRun(cfg, steps) && Restarted(steps, s)
    ensures var step := steps[0];
            && Run(cfg, steps) == Rebuilt(cfg.cluster, cfg.rules, cfg.infer(s), s, step.order, step.evidence)
            && IsEnumeration(step.order, CSIDriverIDs(cfg.cluster, cfg.rules, s))
            && InferredShape(cfg.infer(s)) && EdgesIn(step.evidence, {AffectedByWebhook})
  {
    hide Rebuilt, CSIDriverIDs, IsEnumeration, EdgesIn, Events.IsSnapshotEvidence, InferredShape, EdgeTyping.Regular;
    var step := steps[0];
    assert steps == [step] && [step][..0] == [];
    Events.SnapshotEvidenceKinds(step.evidence, cfg.cluster, s);
  }

  // ---- What an event is counted as ----

  /** A narrow update raises the count of its own kind by one, anything else that of full rebuilds, and no other count moves. */
  lemma EventsCountOnce(event: ChangeEvent, before: Counters)
    ensures var after, kind := before.Increment(StrategyForEvent(event)), KindOf(event);
            && (kind in STORAGE_WORDS ==> after == before.(storage := before.storage + 1))
            && (kind in IDENTITY_WORDS ==> after == before.(identity := before.identity + 1))
            && (kind in WORKLOAD_WORDS ==> after == before.(workload := before.workload + 1))
            && (kind == "pod" ==> after == before.(pod := before.pod + 1))
            && (kind == "service" ==> after == before.(service := before.service + 1))
            && (kind == "event" ==> after == before.(event := before.event + 1))
            && (kind !in STORAGE_WORDS + IDENTITY_WORDS + WORKLOAD_WORDS + {"pod", "service", "event"} ==> after == before.(full := before.full + 1))
  {
    hide StrategyForEvent, KindOf;
    PlannedFor(event);
    if KindOf(event) !in STORAGE_WORDS + IDENTITY_WORDS + WORKLOAD_WORDS + {"pod", "service", "event"} {
      OthersAreRebuilt(event);
    }
  }

  lemma OthersAreRebuilt(event: ChangeEvent)
    requires KindOf(event) !in STORAGE_WORDS + IDENTITY_WORDS + WORKLOAD_WORDS + {"pod", "service", "event"}
    ensures StrategyForEvent(event) == FullRebuild
  {
    hide ToLower, TrimSpace;
  }
}
