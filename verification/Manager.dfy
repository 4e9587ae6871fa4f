/** The runtime: bootstrap, and one change event at a time applied narrowly or by rebuilding. */
module Manager {
  import opened Identity
  import opened Strings
  import opened GraphModel
  import opened Resources
  import opened Builder
  import opened Kernel
  import opened KernelLoops
  import opened Changes
  import opened Runs
  import StorageReconciler
  import IdentityReconciler
  import PodReconciler
  import WorkloadReconciler
  import ServiceReconciler
  import EventReconciler
  import ControllerRules

  // ---- Planning ----

  datatype Strategy =
    | FullRebuild | EventNarrow | StorageNarrow | ServiceNarrow | PodNarrow | WorkloadNarrow | IdentitySecurityNarrow

  /** strings.ToLower as far as it can reach an ASCII letter. */
  function LowerChar(c: char): char {
    if 'A' <= c <= 'Z' then (c as int + 32) as char
    else if c == '\U{130}' then 'i'
    else if c == '\U{212A}' then 'k'
    else c
  }

  function ToLower(s: string): string {
    seq(|s|, i requires 0 <= i < |s| => LowerChar(s[i]))
  }

  function StrategyForEvent(event: ChangeEvent): Strategy {
    var kind := ToLower(TrimSpace(event.kind));
    if kind == "event" then EventNarrow
    else if kind == "pod" then PodNarrow
    else if kind in ["workload", "deployment", "statefulset", "daemonset", "job", "replicaset"] then WorkloadNarrow
    else if kind == "service" then ServiceNarrow
    else if kind in ["storage", "pv", "pvc", "persistentvolume", "persistentvolumeclaim"] then StorageNarrow
    else if kind in ["identity/security", "identity", "security", "serviceaccount", "rolebinding", "clusterrolebinding"] then
      IdentitySecurityNarrow
    else FullRebuild
  }

  /** The step that a strategy takes for an event on a snapshot. */
  ghost predicate StepFor(strategy: Strategy, s: Snapshot, event: ChangeEvent, step: Step) {
    match strategy
    case FullRebuild => step.Bootstrap? && step.snapshot == s
    case StorageNarrow => step.StorageStep? && step.snapshot == s
    case IdentitySecurityNarrow => step == IdentityStep(s)
    case ServiceNarrow => step == ServiceStep(s, event.namespace, event.name, event.change)
    case PodNarrow => step == PodStep(s, event.namespace, event.name, event.change)
    case EventNarrow => step.EventStep? && step == EventStep(s, event.namespace, event.name, event.change, step.evidence)
    case WorkloadNarrow => step.WorkloadStep? && step == WorkloadStep(s, event.namespace, event.name, event.change, step.evidence)
  }

  lemma NamedSteps(s: Snapshot, event: ChangeEvent)
    ensures StepFor(ServiceNarrow, s, event, ServiceStep(s, event.namespace, event.name, event.change))
    ensures StepFor(PodNarrow, s, event, PodStep(s, event.namespace, event.name, event.change))
    ensures forall evidence :: StepFor(EventNarrow, s, event, EventStep(s, event.namespace, event.name, event.change, evidence))
    ensures forall evidence :: StepFor(WorkloadNarrow, s, event, WorkloadStep(s, event.namespace, event.name, event.change, evidence))
  {
  }

  /** Updates of one object need its name. */
  predicate CanReconcile(strategy: Strategy, event: ChangeEvent) {
    strategy in {StorageNarrow, IdentitySecurityNarrow} || (strategy != FullRebuild && event.namespace != "" && event.name != "")
  }

  // ---- Bootstrap ----

  lemma LoadingIsWithAll(g: Graph, ns: seq<Node>, es: seq<Edge>)
    ensures g.(nodes := g.nodes + ToNodes(ns)).(edges := g.edges + ToEdges(es)) == g.WithAll(ns, es)
  {
  }

  /** Builds the snapshot's graph and loads it into a new kernel. */
  method BootstrapRuntime(cfg: Config, s: Snapshot) returns (kernel: Kernel, ghost step: Step)
    ensures fresh(kernel) && fresh(kernel.store) && kernel.Valid()
    ensures step.Bootstrap? && step.snapshot == s && forall g :: Allowed(cfg, g, step) && kernel.View() == After(cfg, g, step)
  {
    hide Kernel.Valid, Kernel.View, BuildNodes, BuildEdges, IsEvidence, IsEnumeration, BlockedWorkloads, WorkloadIDs, WebhookIDs, CSIDriverIDs,
         Allowed, After;
    var nodes, edges, order, evidence := Build(cfg.cluster, cfg.rules, cfg.infer(s), s);
    var store := new Store();
    kernel := new Kernel(store);
    UpsertNodeList(kernel, nodes);
    UpsertEdgeList(kernel, edges);
    LoadingIsWithAll(EMPTY_GRAPH, nodes, edges);
    step := Bootstrap(s, order, evidence);
    AfterBootstrap(cfg, s, order, evidence);
  }

  // ---- Narrow updates ----

  /** One reconciler, and after pods and workloads the controller rules as well. */
  method Reconcile(kernel: Kernel, cfg: Config, strategy: Strategy, s: Snapshot, event: ChangeEvent) returns (ok: bool, ghost step: Step)
    requires kernel.Valid() && strategy != FullRebuild
    modifies kernel.store
    ensures kernel.Valid() && (ok <==> CanReconcile(strategy, event))
    ensures ok ==> StepFor(strategy, s, event, step) && Allowed(cfg, old(kernel.View()), step) && kernel.View() == After(cfg, old(kernel.View()), step)
    ensures !ok ==> kernel.View() == old(kernel.View())
  {
    hide Kernel.Valid, Kernel.View, Allowed, After;
    match strategy
    case StorageNarrow =>
      step := ReconcileStorage(kernel, cfg, s);
      ok := true;
    case IdentitySecurityNarrow =>
      step := ReconcileIdentity(kernel, cfg, s);
      ok := true;
    case ServiceNarrow =>
      ok, step := ReconcileService(kernel, cfg, s, event);
    case EventNarrow =>
      ok, step := ReconcileEvent(kernel, cfg, s, event);
    case PodNarrow =>
      ok, step := ReconcilePod(kernel, cfg, s, event);
    case WorkloadNarrow =>
      ok, step := ReconcileWorkload(kernel, cfg, s, event);
  }

  method ReconcileStorage(kernel: Kernel, cfg: Config, s: Snapshot) returns (ghost step: Step)
    requires kernel.Valid()
    modifies kernel.store
    ensures kernel.Valid() && step.StorageStep? && step.snapshot == s && Allowed(cfg, old(kernel.View()), step) && kernel.View() == After(cfg, old(kernel.View()), step)
  {
    hide Kernel.Valid, Kernel.View, Allowed, After, StorageReconciler.Reconciled, IsEnumeration, CSIDriverIDs, StorageMapsOf,
         StorageReconciler.Cleared, StorageReconciler.RebuiltStorageEdges, StorageReconciler.KernelDriverNames;
    ghost var g := kernel.View();
    var _, order := StorageReconciler.Apply(kernel, cfg.cluster, cfg.rules, s);
    AfterStorage(cfg, g, s, order);
    step := StorageStep(s, order);
  }

  method ReconcileIdentity(kernel: Kernel, cfg: Config, s: Snapshot) returns (ghost step: Step)
    requires kernel.Valid()
    modifies kernel.store
    ensures kernel.Valid() && step == IdentityStep(s) && Allowed(cfg, old(kernel.View()), step) && kernel.View() == After(cfg, old(kernel.View()), step)
  {
    hide Kernel.Valid, Kernel.View, Allowed, After, IdentityReconciler.Reconciled, IdentityReconciler.Cleared, IdentityReconciler.IdentityEdges;
    AfterIdentity(cfg, kernel.View(), s);
    var _ := IdentityReconciler.Apply(kernel, cfg.cluster, s);
    step := IdentityStep(s);
  }

  method ReconcileService(kernel: Kernel, cfg: Config, s: Snapshot, event: ChangeEvent) returns (ok: bool, ghost step: Step)
    requires kernel.Valid()
    modifies kernel.store
    ensures kernel.Valid()
    ensures ok ==> StepFor(ServiceNarrow, s, event, step) && Allowed(cfg, old(kernel.View()), step) && kernel.View() == After(cfg, old(kernel.View()), step)
    ensures !ok ==> kernel.View() == old(kernel.View())
    ensures !ok <==> event.namespace == "" || event.name == ""
  {
    hide StepFor, Kernel.Valid, Kernel.View, Allowed, After;
    NamedSteps(s, event);
    AfterService(cfg, kernel.View(), s, event.namespace, event.name, event.change);
    var out := ServiceReconciler.Apply(kernel, cfg.cluster, s, event.namespace, event.name, event.change);
    return !out.Failed?, ServiceStep(s, event.namespace, event.name, event.change);
  }

  method ReconcileEvent(kernel: Kernel, cfg: Config, s: Snapshot, event: ChangeEvent) returns (ok: bool, ghost step: Step)
    requires kernel.Valid()
    modifies kernel.store
    ensures kernel.Valid()
    ensures ok ==> StepFor(EventNarrow, s, event, step) && Allowed(cfg, old(kernel.View()), step) && kernel.View() == After(cfg, old(kernel.View()), step)
    ensures !ok ==> kernel.View() == old(kernel.View())
    ensures !ok <==> event.namespace == "" || event.name == ""
  {
    hide StepFor, Kernel.Valid, Kernel.View, EventReconciler.IsSnapshotEvidence, EventReconciler.Cleared, EventReconciler.WithEvent, Allowed, After;
    NamedSteps(s, event);
    ghost var g := kernel.View();
    var out, evidence := EventReconciler.Apply(kernel, cfg.cluster, s, event.namespace, event.name, event.change);
    AfterEvent(cfg, g, s, event.namespace, event.name, event.change, evidence);
    return !out.Failed?, EventStep(s, event.namespace, event.name, event.change, evidence);
  }

  method ReconcilePod(kernel: Kernel, cfg: Config, s: Snapshot, event: ChangeEvent) returns (ok: bool, ghost step: Step)
    requires kernel.Valid()
    modifies kernel.store
    ensures kernel.Valid()
    ensures ok ==> StepFor(PodNarrow, s, event, step) && Allowed(cfg, old(kernel.View()), step) && kernel.View() == After(cfg, old(kernel.View()), step)
    ensures !ok ==> kernel.View() == old(kernel.View())
    ensures !ok <==> event.namespace == "" || event.name == ""
  {
    hide StepFor, Kernel.Valid, Kernel.View, ControllerRules.Reconciled, PodReconciler.Pruned, PodReconciler.PodsDeleted, PodReconciler.WithPod,
         Allowed, After;
    NamedSteps(s, event);
    AfterPod(cfg, kernel.View(), s, event.namespace, event.name, event.change);
    var out := PodReconciler.Apply(kernel, cfg.cluster, s, event.namespace, event.name, event.change);
    step := PodStep(s, event.namespace, event.name, event.change);
    if out.Failed? {
      return false, step;
    }
    var _, _ := ControllerRules.Apply(kernel, cfg.infer(s).controllerEdges);
    return true, step;
  }

  method ReconcileWorkload(kernel: Kernel, cfg: Config, s: Snapshot, event: ChangeEvent) returns (ok: bool, ghost step: Step)
    requires kernel.Valid()
    modifies kernel.store
    ensures kernel.Valid()
    ensures ok ==> StepFor(WorkloadNarrow, s, event, step) && Allowed(cfg, old(kernel.View()), step) && kernel.View() == After(cfg, old(kernel.View()), step)
    ensures !ok ==> kernel.View() == old(kernel.View())
    ensures !ok <==> event.namespace == "" || event.name == ""
  {
    hide StepFor, Kernel.Valid, Kernel.View, WorkloadReconciler.Kept, ControllerRules.Reconciled, WorkloadReconciler.Prepared,
         WorkloadReconciler.WorkloadIDSet, WorkloadReconciler.IsWorkloadEvidence, WorkloadReconciler.RebuiltWorkloadEdges, Allowed, After;
    NamedSteps(s, event);
    ghost var g := kernel.View();
    var out, evidence := WorkloadReconciler.Apply(kernel, cfg.cluster, s, event.namespace, event.name, event.change);
    step := WorkloadStep(s, event.namespace, event.name, event.change, evidence);
    AfterWorkload(cfg, g, s, event.namespace, event.name, event.change, evidence);
    if out.Failed? {
      return false, step;
    }
    var _, _ := ControllerRules.Apply(kernel, cfg.infer(s).controllerEdges);
    return true, step;
  }

  // ---- The manager ----

  datatype Phase = Starting | Bootstrapping | Ready | Degraded

  datatype Counters = Counters(full: nat, event: nat, storage: nat, service: nat, pod: nat, workload: nat, identity: nat) {
    function Sum(): nat { full + event + storage + service + pod + workload + identity }
    /** incrementStrategy, and the full-rebuild count of a bootstrap. */
    function Increment(strategy: Strategy): Counters {
      match strategy
      case FullRebuild => this.(full := full + 1)
      case EventNarrow => this.(event := event + 1)
      case StorageNarrow => this.(storage := storage + 1)
      case ServiceNarrow => this.(service := service + 1)
      case PodNarrow => this.(pod := pod + 1)
      case WorkloadNarrow => this.(workload := workload + 1)
      case IdentitySecurityNarrow => this.(identity := identity + 1)
    }
  }

  const NO_COUNTS := Counters(0, 0, 0, 0, 0, 0, 0)

  datatype LastApplied = NothingApplied | Applied(event: ChangeEvent, strategy: Strategy)

  datatype Status = Status(phase: Phase, ready: bool, lastApplied: LastApplied, counters: Counters, lastError: string)

  datatype Collection = Collected(snapshot: Snapshot) | NotCollected(reason: string)

  datatype StoredSnapshot = NoSnapshot | Stored(snapshot: Snapshot)

  class Manager {
    const cfg: Config
    var status: Status
    var kernel: Kernel?
    var snapshot: StoredSnapshot
    /** The run that led to the kernel's graph. */
    ghost var steps: seq<Step>
    /** How many calls have returned nil since the last start, that one included. */
    ghost var served: nat

    /** The objects behind the kernel. */
    ghost function Frame(): set<object>
      reads this
    {
      if kernel == null then {} else {kernel.store}
    }

    /** The kernel holds what the run so far leads to. */
    ghost predicate Grounded()
      reads this, kernel, Frame()
    {
      && (kernel != null ==> kernel.Valid() && IsRun(cfg, steps) && kernel.View() == Run(cfg, steps))
      && (snapshot.NoSnapshot? <==> kernel == null)
    }

    /** The seven counters sum to the calls that returned nil, and the runtime is ready once one has. */
    ghost predicate Tallied()
      reads this
    {
      status.counters.Sum() == served && (served > 0 <==> status.ready) && (status.ready ==> kernel != null)
    }

    ghost predicate Valid()
      reads this, kernel, Frame()
    {
      Grounded() && Tallied()
    }

    constructor (cfg: Config)
      ensures Valid() && this.cfg == cfg && status == Status(Starting, false, NothingApplied, NO_COUNTS, "") && kernel == null
    {
      hide IsRun, Run, Kernel.Valid, Kernel.View, Counters.Sum;
      NothingCounted();
      this.cfg := cfg;
      status := Status(Starting, false, NothingApplied, NO_COUNTS, "");
      kernel := null;
      snapshot := NoSnapshot;
      steps, served := [], 0;
    }

    /** applyBootstrapResult: everything about the kernel is replaced, the counts carry over. */
    method AcceptBootstrap(fresh0: Kernel, s: Snapshot, ghost step: Step)
      requires fresh0.Valid() && step.Bootstrap? && step.snapshot == s && forall g :: Allowed(cfg, g, step) && fresh0.View() == After(cfg, g, step)
      requires Tallied()
      modifies this
      ensures Valid() && served == old(served) + 1 && kernel == fresh0 && snapshot == StoredSnapshot.Stored(s) && steps == [step]
      ensures status == old(status).(phase := Ready, ready := true, counters := old(status).counters.Increment(FullRebuild), lastError := "")
      ensures fresh0.View() == old(fresh0.View())
    {
      hide Kernel.Valid, Kernel.View, Allowed, After, IsRun, Run, Counters.Increment, Counters.Sum;
      CountedOnce(status.counters);
      steps, served := [step], served + 1;
      RunOfOne(cfg, step);
      kernel, snapshot := fresh0, StoredSnapshot.Stored(s);
      status := status.(phase := Ready, ready := true, counters := status.counters.Increment(FullRebuild), lastError := "");
    }

    /** A full rebuild; it fails only with the collection, and then changes nothing but phase and error. */
    method Rebuild(collection: Collection) returns (ok: bool)
      requires Valid()
      modifies this
      ensures Valid() && (ok <==> collection.Collected?) && served == old(served) + if ok then 1 else 0
      ensures ok ==> snapshot == StoredSnapshot.Stored(collection.snapshot) && fresh(kernel) && fresh(kernel.store)
      ensures ok ==> Restarted(steps, collection.snapshot)
      ensures ok ==> status == old(status).(phase := Ready, ready := true, counters := old(status).counters.Increment(FullRebuild), lastError := "")
      ensures !ok ==> kernel == old(kernel) && snapshot == old(snapshot) && steps == old(steps)
      ensures !ok ==> status == old(status).(phase := Degraded, lastError := collection.reason)
    {
      hide Kernel.Valid, Kernel.View, Allowed, After, Run, IsRun;
      if collection.NotCollected? {
        status := status.(phase := Degraded, lastError := collection.reason);
        return false;
      }
      var built, step := BootstrapRuntime(cfg, collection.snapshot);
      AcceptBootstrap(built, collection.snapshot, step);
      return true;
    }

    /** Start forgets all counts and readiness, then bootstraps. */
    method Start(collection: Collection) returns (ok: bool)
      requires Valid()
      modifies this
      ensures Valid() && (ok <==> collection.Collected?) && served == if ok then 1 else 0
      ensures ok ==> status.ready && status.counters == NO_COUNTS.Increment(FullRebuild) && snapshot == StoredSnapshot.Stored(collection.snapshot)
      ensures ok ==> fresh(kernel) && fresh(kernel.store) && Restarted(steps, collection.snapshot)
      ensures !ok ==> !status.ready && status.counters == NO_COUNTS && kernel == old(kernel) && snapshot == old(snapshot)
      ensures fresh(Frame() - old(Frame()))
    {
      hide Kernel.Valid, Kernel.View, Allowed, After, Run, IsRun, Counters.Increment, Counters.Sum;
      NothingCounted();
      status, served := Status(Bootstrapping, false, NothingApplied, NO_COUNTS, ""), 0;
      ok := Rebuild(collection);
    }

    /** A narrow apply: collect, reconcile, and only then record. */
    method ApplyNarrow(strategy: Strategy, event: ChangeEvent, collection: Collection) returns (ok: bool)
      requires Valid() && strategy != FullRebuild
      modifies this, Frame()
      ensures Valid() && kernel == old(kernel) && served == old(served) + if ok then 1 else 0
      ensures ok <==> collection.Collected? && kernel != null && CanReconcile(strategy, event)
      ensures ok ==> status == Status(Ready, true, Applied(event, strategy), old(status).counters.Increment(strategy), "")
      ensures ok ==> snapshot == StoredSnapshot.Stored(collection.snapshot)
      ensures ok ==> Continued(old(steps), steps, strategy, collection.snapshot, event)
      ensures !ok ==> snapshot == old(snapshot) && steps == old(steps)
      ensures !ok ==> status.counters == old(status).counters && status.ready == old(status).ready
      ensures !ok && kernel != null ==> kernel.View() == old(kernel.View())
    {
      hide Kernel.Valid, Kernel.View, Allowed, After, IsRun, Run, Counters.Increment, Counters.Sum;
      CountedOnce(status.counters);
      if collection.NotCollected? {
        status := status.(phase := Degraded, lastError := collection.reason);
        return false;
      }
      if kernel == null {
        return false;
      }
      ghost var before := steps;
      ghost var step;
      ok, step := Reconcile(kernel, cfg, strategy, collection.snapshot, event);
      if !ok {
        return;
      }
      steps, served := before + [step], served + 1;
      RunOfMore(cfg, before, step);
      assert Continued(before, steps, strategy, collection.snapshot, event);
      snapshot := StoredSnapshot.Stored(collection.snapshot);
      status := Status(Ready, true, Applied(event, strategy), status.counters.Increment(strategy), "");
    }

    /** Apply: the planned narrow update, and a full rebuild where there is none or it fails. A call that returns nil counts exactly
        once; one that fails leaves graph, snapshot, counts and readiness as they were. */
    method Apply(event: ChangeEvent, narrow: Collection, full: Collection) returns (ok: bool)
      requires Valid()
      modifies this, Frame()
      ensures Valid() && (old(status).ready ==> status.ready) && served == old(served) + if ok then 1 else 0
      ensures ok ==> status.phase == Ready && status.lastApplied.Applied? && status.lastApplied.event == event
      ensures ok ==> status.lastApplied.strategy == if kernel == old(kernel) then StrategyForEvent(event) else FullRebuild
      ensures ok ==> status.counters == old(status).counters.Increment(status.lastApplied.strategy)
      ensures ok && kernel == old(kernel) <==> old(kernel) != null && narrow.Collected? && CanReconcile(StrategyForEvent(event), event)
      ensures ok && kernel == old(kernel) ==> snapshot == StoredSnapshot.Stored(narrow.snapshot)
      ensures ok && kernel == old(kernel) ==> Continued(old(steps), steps, StrategyForEvent(event), narrow.snapshot, event)
      ensures ok && kernel != old(kernel) ==>
        full.Collected? && snapshot == StoredSnapshot.Stored(full.snapshot) && Restarted(steps, full.snapshot)
      ensures !ok ==> kernel == old(kernel) && snapshot == old(snapshot) && status.counters == old(status).counters && steps == old(steps)
      ensures !ok && kernel != null ==> kernel.View() == old(kernel.View())
      ensures !ok ==> full.NotCollected? && status.phase == Degraded
      ensures fresh(Frame() - old(Frame()))
    {
      hide Kernel.Valid, Kernel.View, IsRun, Run, StrategyForEvent, Counters.Increment, Counters.Sum;
      var strategy := StrategyForEvent(event);
      if strategy != FullRebuild {
        var applied := ApplyNarrow(strategy, event, narrow);
        if applied {
          return true;
        }
      }
      ok := Rebuild(full);
      if ok {
        status := status.(lastApplied := Applied(event, FullRebuild));
      }
    }
  }

  /** The run starts over with a bootstrap of the snapshot. */
  ghost predicate Restarted(steps: seq<Step>, s: Snapshot) {
    |steps| == 1 && steps[0].Bootstrap? && steps[0].snapshot == s
  }

  /** The run goes on with the step that the strategy takes. */
  ghost predicate Continued(before: seq<Step>, steps: seq<Step>, strategy: Strategy, s: Snapshot, event: ChangeEvent) {
    |steps| == |before| + 1 && steps[..|before|] == before && StepFor(strategy, s, event, steps[|before|])
  }

  lemma NothingCounted()
    ensures NO_COUNTS.Sum() == 0
  {
  }

  lemma CountedOnce(counters: Counters)
    ensures forall strategy :: counters.Increment(strategy).Sum() == counters.Sum() + 1
  {
  }

  lemma RunOfOne(cfg: Config, step: Step)
    requires forall g :: Allowed(cfg, g, step)
    ensures IsRun(cfg, [step]) && Run(cfg, [step]) == After(cfg, EMPTY_GRAPH, step)
  {
    hide Allowed, After;
    assert [step][..0] == [];
  }

  lemma RunOfMore(cfg: Config, steps: seq<Step>, step: Step)
    requires IsRun(cfg, steps) && Allowed(cfg, Run(cfg, steps), step)
    ensures IsRun(cfg, steps + [step]) && Run(cfg, steps + [step]) == After(cfg, Run(cfg, steps), step)
  {
    hide Allowed, After;
    assert (steps + [step])[..|steps|] == steps;
  }

  /** Whatever the manager serves satisfies what every run satisfies. */
  lemma ServedGraphsAreSound(m: Manager, p: CanonicalID, w: CanonicalID, image: CanonicalID)
    requires m.Valid() && m.kernel != null && InfersWell(m.cfg)
    ensures var g := m.kernel.View();
            && (EdgeKey(p, ManagedBy, w) in g.edges <==> EdgeKey(w, OwnsPod, p) in g.edges)
            && (Runs.Stored(g, image, Image) <==> exists q :: EdgeKey(q, UsesImage, image) in g.edges && Runs.Stored(g, q, Pod))
  {
    hide Run, IsRun, InfersWell, Kernel.Valid, Kernel.View;
    OwnershipStaysPaired(m.cfg, m.steps, p, w);
    ImagesAreStoredWhileUsed(m.cfg, m.steps, image);
  }
}
