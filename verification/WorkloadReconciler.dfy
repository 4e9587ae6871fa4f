/** Incremental update of the workloads of one name: their nodes, ownership edges, reports and webhook evidence. */
module WorkloadReconciler {
  import opened Identity
  import opened GraphModel
  import opened Resources
  import opened OwnerChain
  import opened Builder
  import opened Kernel
  import opened KernelLoops
  import opened Changes

  function FindWorkloads(workloads: seq<KubeWorkload>, namespace: Text, name: Text): seq<KubeWorkload> {
    if workloads == [] then []
    else
      var w := workloads[|workloads| - 1];
      FindWorkloads(workloads[..|workloads| - 1], namespace, name)
      + if w.meta.namespace == namespace && w.meta.name == name then [w] else []
  }

  lemma {:induction false} FindWorkloadsFinds(workloads: seq<KubeWorkload>, namespace: Text, name: Text)
    ensures forall w :: w in FindWorkloads(workloads, namespace, name) <==>
      w in workloads && w.meta.namespace == namespace && w.meta.name == name
  {
    if workloads != [] {
      FindWorkloadsFinds(workloads[..|workloads| - 1], namespace, name);
      assert workloads == workloads[..|workloads| - 1] + [workloads[|workloads| - 1]];
    }
  }

  function WorkloadIDSet(c: Text, workloads: seq<KubeWorkload>): set<CanonicalID> {
    set w | w in workloads :: WorkloadID(c, w)
  }

  predicate IsWorkloadScopedEdge(k: EdgeKey, id: CanonicalID) {
    match k.kind
    case OwnsPod => k.from == id
    case AffectedByWebhook => k.from == id
    case ManagedBy => k.to == id
    case ReportedByEvent => k.to == id
    case ControlledBy => k.from == id || k.to == id
    case _ => false
  }

  function WorkloadScope(ids: set<CanonicalID>): EdgeKey -> bool {
    (k: EdgeKey) => (IsWorkloadScopedEdge(k, k.from) && k.from in ids) || (IsWorkloadScopedEdge(k, k.to) && k.to in ids)
  }

  lemma ScopeIsTheUnion(ids: set<CanonicalID>, k: EdgeKey)
    ensures WorkloadScope(ids)(k) <==> exists id | id in ids :: IsWorkloadScopedEdge(k, id)
  {
    if id :| id in ids && IsWorkloadScopedEdge(k, id) {
      assert id == k.from || id == k.to;
    }
  }

  function StaleWorkload(namespace: Text, name: Text, keep: set<CanonicalID>): Node -> bool {
    (n: Node) => n.kind == Workload && n.namespace == namespace && n.name == name && n.id !in keep
  }

  // ---- What an update upserts ----

  predicate ContainsTarget(targets: seq<WorkloadTarget>, ids: set<CanonicalID>) {
    exists t | t in targets :: t.id in ids
  }

  /** A pod owned by one of the workloads gets all its ownership edges again. */
  function PodOwnersF(c: Text, r: Resolver, ids: set<CanonicalID>): KubePod -> seq<Edge> {
    (p: KubePod) =>
      var targets := ResolveReferences(r, p.meta.namespace, p.ownerReferences);
      if ContainsTarget(targets, ids) then OwnerEdges(PodID(c, p), targets) else []
  }

  function ScopedControl(childID: CanonicalID, targets: seq<WorkloadTarget>, ids: set<CanonicalID>, all: set<CanonicalID>): (es: seq<Edge>)
    ensures forall e | e in es :: e.kind == ControlledBy && e.from == childID && e.to != childID && (e.from in ids || e.to in ids)
  {
    if targets == [] then []
    else
      var t := targets[|targets| - 1];
      ScopedControl(childID, targets[..|targets| - 1], ids, all)
      + if t.id != childID && (childID in ids || t.id in ids) && t.id in all then [NewEdge(childID, t.id, ControlledBy)] else []
  }

  function ControlF(c: Text, r: Resolver, ids: set<CanonicalID>, all: set<CanonicalID>): KubeWorkload -> seq<Edge> {
    (w: KubeWorkload) => ScopedControl(WorkloadID(c, w), ResolveReferences(r, w.meta.namespace, w.ownerReferences), ids, all)
  }

  /** The workloads in scope, in snapshot order. */
  function TargetsIn(c: Text, workloads: seq<KubeWorkload>, ids: set<CanonicalID>): seq<WorkloadTarget> {
    if workloads == [] then []
    else
      var w := workloads[|workloads| - 1];
      TargetsIn(c, workloads[..|workloads| - 1], ids) + if WorkloadID(c, w) in ids then [WorkloadObject(c, w).target] else []
  }

  function ReportF(c: Text, e: KubeEvent): WorkloadTarget -> seq<Edge> {
    (t: WorkloadTarget) =>
      if e.involvedKind == t.kind && e.involvedUID == t.uid then [NewEdge(EventID(c, e), t.id, ReportedByEvent)] else []
  }

  /** Reports come only from events whose nodes are stored. */
  function ReportsF(c: Text, nodes: NodeMap, targets: seq<WorkloadTarget>): KubeEvent -> seq<Edge> {
    (e: KubeEvent) => if EventID(c, e) in nodes then Flat(targets, ReportF(c, e)) else []
  }

  predicate IsBlocking(e: KubeEvent) {
    e.reason == "FailedCreate" || e.reason == "FailedAdmission"
  }

  function BlockF(e: KubeEvent): WorkloadTarget -> seq<CanonicalID> {
    (t: WorkloadTarget) => if e.meta.namespace == t.namespace && e.involvedName == t.name then [t.id] else []
  }

  /** The workloads in scope that failed-creation events are about, one entry per event and workload. */
  function BlockedF(targets: seq<WorkloadTarget>): KubeEvent -> seq<CanonicalID> {
    (e: KubeEvent) => if IsBlocking(e) then Flat(targets, BlockF(e)) else []
  }

  function OwnershipEdges(c: Text, s: Snapshot, ids: set<CanonicalID>): seq<Edge> {
    var r := NewChainResolver(c, s.workloads, s.replicaSets);
    Flat(s.pods, PodOwnersF(c, r, ids)) + Flat(s.workloads, ControlF(c, r, ids, WorkloadIDSet(c, s.workloads)))
  }

  /** `evidence` stands for the webhooks the update happens to pick. */
  function RebuiltWorkloadEdges(c: Text, s: Snapshot, ids: set<CanonicalID>, nodes: NodeMap, evidence: seq<Edge>): seq<Edge> {
    OwnershipEdges(c, s, ids) + Flat(s.events, ReportsF(c, nodes, TargetsIn(c, s.workloads, ids))) + evidence
  }

  function WorkloadNodes(c: Text, found: seq<KubeWorkload>): seq<Node> {
    Flat(found, WorkloadNodeF(c))
  }

  ghost function StaleWorkloads(g: Graph, namespace: Text, name: Text, keep: set<CanonicalID>): set<CanonicalID> {
    Doomed(g, StaleWorkload(namespace, name, keep))
  }

  ghost function WorkloadsDeleted(g: Graph, namespace: Text, name: Text, keep: set<CanonicalID>): Graph {
    g.WithoutNodes(StaleWorkloads(g, namespace, name, keep)).WithoutEdges(WorkloadScope(keep))
  }

  /** The workloads an update keeps. */
  function Kept(c: Text, s: Snapshot, namespace: Text, name: Text, change: ChangeType): seq<KubeWorkload> {
    if change == ChangeDelete then [] else FindWorkloads(s.workloads, namespace, name)
  }

  /** The identifiers an update keeps are those of the listed workloads of the name. */
  lemma KeptAreTheNamed(c: Text, s: Snapshot, namespace: Text, name: Text, change: ChangeType, id: CanonicalID)
    ensures id in WorkloadIDSet(c, Kept(c, s, namespace, name, change)) <==>
      change == ChangeUpsert && exists w | w in s.workloads :: w.meta.namespace == namespace && w.meta.name == name && WorkloadID(c, w) == id
  {
    hide WorkloadID, FindWorkloads;
    FindWorkloadsFinds(s.workloads, namespace, name);
  }

  /** The graph before ownership is rebuilt. */
  ghost function Prepared(g: Graph, c: Text, s: Snapshot, namespace: Text, name: Text, change: ChangeType): Graph {
    var found := Kept(c, s, namespace, name, change);
    WorkloadsDeleted(g, namespace, name, WorkloadIDSet(c, found)).WithAll(WorkloadNodes(c, found), [])
  }

  /** The graph after an update of the named workloads. */
  ghost function Reconciled(g: Graph, c: Text, s: Snapshot, namespace: Text, name: Text, change: ChangeType, evidence: seq<Edge>): Graph {
    var found := Kept(c, s, namespace, name, change);
    if namespace == "" || name == "" then g
    else
      var prepared := Prepared(g, c, s, namespace, name, change);
      if found == [] then prepared
      else prepared.WithAll([], RebuiltWorkloadEdges(c, s, WorkloadIDSet(c, found), prepared.nodes, evidence))
  }

  ghost predicate IsWorkloadEvidence(evidence: seq<Edge>, c: Text, s: Snapshot, ids: set<CanonicalID>, nodes: NodeMap) {
    IsEvidence(evidence, Flat(s.events, BlockedF(TargetsIn(c, s.workloads, ids))), WebhookIDs(c, s.webhookConfigs).Values * nodes.Keys)
  }

  // ---- The update as the source runs it ----

  /** Webhooks come up in map order; the first one stored is taken. */
  method PickWebhook(kernel: Kernel, webhooks: set<CanonicalID>) returns (id: CanonicalID, ok: bool)
    requires kernel.Valid()
    ensures ok ==> id in webhooks * kernel.View().nodes.Keys
    ensures !ok ==> webhooks * kernel.View().nodes.Keys == {}
  {
    hide Kernel.Valid, Kernel.View;
    var rest := webhooks;
    while rest != {}
      invariant rest <= webhooks && (webhooks - rest) * kernel.View().nodes.Keys == {}
    {
      var w :| w in rest;
      var _, stored := kernel.GetNode(w);
      if stored {
        return w, true;
      }
      rest := rest - {w};
    }
    return "", false;
  }

  lemma EvidenceStep(evidence: seq<Edge>, blocked: seq<CanonicalID>, i: nat, webhooks: set<CanonicalID>, w: CanonicalID)
    requires i < |blocked| && IsEvidence(evidence, blocked[..i], webhooks)
    ensures webhooks == {} ==> IsEvidence(evidence, blocked[..i + 1], webhooks)
    ensures w in webhooks ==> IsEvidence(evidence + [NewEdge(blocked[i], w, AffectedByWebhook)], blocked[..i + 1], webhooks)
  {
  }

  method UpsertEvidence(kernel: Kernel, blocked: seq<CanonicalID>, webhooks: set<CanonicalID>) returns (upserted: nat, ghost evidence: seq<Edge>)
    requires kernel.Valid()
    modifies kernel.store
    ensures kernel.Valid() && kernel.View() == old(kernel.View()).WithAll([], evidence) && upserted == |evidence|
    ensures IsEvidence(evidence, blocked, webhooks * old(kernel.View()).nodes.Keys)
  {
    hide Kernel.Valid, Kernel.View, IsEvidence, ToEdges;
    ghost var g := kernel.View();
    ghost var present := webhooks * g.nodes.Keys;
    upserted, evidence := 0, [];
    NoEvidence(present);
    NothingMore(g);
    for i := 0 to |blocked|
      invariant kernel.Valid() && kernel.View() == g.WithAll([], evidence) && upserted == |evidence|
      invariant IsEvidence(evidence, blocked[..i], present)
    {
      NothingMore(g);
      var w, ok := PickWebhook(kernel, webhooks);
      EvidenceStep(evidence, blocked, i, present, w);
      if ok {
        var edge := NewEdge(blocked[i], w, AffectedByWebhook);
        OneMore(g, evidence, edge);
        kernel.UpsertEdge(edge);
        evidence, upserted := evidence + [edge], upserted + 1;
      }
    }
    PrefixEnds(blocked);
  }

  lemma NoEvidence(webhooks: set<CanonicalID>)
    ensures IsEvidence([], [], webhooks)
  {
  }

  lemma NothingMore(g: Graph)
    ensures g.WithAll([], []) == g
    ensures forall es :: g.WithAll([], es).nodes == g.nodes
    ensures forall es :: g.WithAll([], es) == g.(edges := g.edges + ToEdges(es))
  {
    assert g.nodes + map[] == g.nodes;
  }

  lemma OneMore(g: Graph, es: seq<Edge>, edge: Edge)
    ensures g.WithAll([], es).WithEdge(edge) == g.WithAll([], es + [edge])
  {
    assert (es + [edge])[..|es|] == es;
    assert g.edges + ToEdges(es + [edge]) == (g.edges + ToEdges(es))[edge.Triple() := edge];
  }

  method UpsertReports(kernel: Kernel, c: Text, events: seq<KubeEvent>, targets: seq<WorkloadTarget>) returns (upserted: nat)
    requires kernel.Valid()
    modifies kernel.store
    ensures var es := Flat(events, ReportsF(c, old(kernel.View()).nodes, targets));
            kernel.Valid() && kernel.View() == old(kernel.View()).WithAll([], es) && upserted == |es|
  {
    hide Kernel.Valid, Kernel.View, ToEdges, ReportF, EventID;
    ghost var g := kernel.View();
    ghost var f := ReportsF(c, g.nodes, targets);
    NothingMore(g);
    upserted := 0;
    for i := 0 to |events|
      invariant kernel.Valid() && kernel.View() == g.(edges := g.edges + ToEdges(Flat(events[..i], f)))
      invariant upserted == |Flat(events[..i], f)|
    {
      FlatStep(events, i, f);
      AccumulateEdges(g.edges, Flat(events[..i], f), f(events[i]));
      var _, stored := kernel.GetNode(EventID(c, events[i]));
      if stored {
        var more := Append([], targets, ReportF(c, events[i]));
        UpsertEdgeList(kernel, more);
        upserted := upserted + |more|;
      } else {
        EmptyFlat(events, f);
      }
    }
    PrefixEnds(events);
  }

  method RebuildWorkloadEdges(kernel: Kernel, c: Text, s: Snapshot, ids: set<CanonicalID>) returns (upserted: nat, ghost evidence: seq<Edge>)
    requires kernel.Valid()
    modifies kernel.store
    ensures kernel.Valid() && IsWorkloadEvidence(evidence, c, s, ids, old(kernel.View()).nodes)
    ensures var es := RebuiltWorkloadEdges(c, s, ids, old(kernel.View()).nodes, evidence);
            kernel.View() == old(kernel.View()).WithAll([], es) && upserted == |es|
  {
    hide Kernel.Valid, Kernel.View, Flat, ToEdges, PodOwnersF, ControlF, ReportsF, TargetsIn, NewChainResolver, BlockedF, IsEvidence,
         WorkloadIDSet, WebhookIDs, OwnershipEdges;
    var r := NewChainResolver(c, s.workloads, s.replicaSets);
    ghost var g := kernel.View();
    NothingMore(g);
    upserted := UpsertEdges(kernel, s.pods, PodOwnersF(c, r, ids));
    ghost var pods := Flat(s.pods, PodOwnersF(c, r, ids));
    var all := WorkloadIDSet(c, s.workloads);
    var more := UpsertEdges(kernel, s.workloads, ControlF(c, r, ids, all));
    AccumulateEdges(g.edges, pods, Flat(s.workloads, ControlF(c, r, ids, all)));
    ghost var es := OwnershipEdges(c, s, ids);
    assert es == pods + Flat(s.workloads, ControlF(c, r, ids, all)) by { OwnershipParts(c, s, ids); }
    upserted := upserted + more;
    var targets := TargetsIn(c, s.workloads, ids);
    ghost var owned := kernel.View();
    NothingMore(owned);
    more := UpsertReports(kernel, c, s.events, targets);
    ghost var reports := Flat(s.events, ReportsF(c, g.nodes, targets));
    AccumulateEdges(g.edges, es, reports);
    upserted := upserted + more;
    var blocked := Append([], s.events, BlockedF(targets));
    ghost var reported := kernel.View();
    NothingMore(reported);
    more, evidence := UpsertEvidence(kernel, blocked, WebhookIDs(c, s.webhookConfigs).Values);
    AccumulateEdges(g.edges, es + reports, evidence);
    upserted := upserted + more;
  }

  lemma OwnershipParts(c: Text, s: Snapshot, ids: set<CanonicalID>)
    ensures var r := NewChainResolver(c, s.workloads, s.replicaSets);
            OwnershipEdges(c, s, ids) ==
              Flat(s.pods, PodOwnersF(c, r, ids)) + Flat(s.workloads, ControlF(c, r, ids, WorkloadIDSet(c, s.workloads)))
  {
  }

  datatype WorkloadApplyResult = WorkloadApplyResult(applied: bool, deleted: bool, upsertedEdges: nat, deletedEdges: nat, deletedNodes: nat)

  lemma ScopesAdd(m: EdgeMap, ids: set<CanonicalID>, id: CanonicalID)
    ensures var once := Graph(map[], m).WithoutEdges(WorkloadScope(ids)).WithoutEdges(WorkloadScope({id}));
            once == Graph(map[], m).WithoutEdges(WorkloadScope(ids + {id}))
  {
    hide IsWorkloadScopedEdge;
  }

  lemma WorkloadIDSetStep(c: Text, found: seq<KubeWorkload>, i: nat)
    requires i < |found|
    ensures WorkloadIDSet(c, found[..i + 1]) == WorkloadIDSet(c, found[..i]) + {WorkloadID(c, found[i])}
  {
    hide WorkloadID;
  }

  lemma WorkloadNodesStep(m: NodeMap, c: Text, found: seq<KubeWorkload>, i: nat)
    requires i < |found|
    ensures m + ToNodes(WorkloadNodes(c, found[..i + 1])) ==
            (m + ToNodes(WorkloadNodes(c, found[..i])))[WorkloadID(c, found[i]) := WorkloadNode(c, found[i])]
  {
    hide WorkloadID;
    FlatStep(found, i, WorkloadNodeF(c));
    var ns, n := WorkloadNodes(c, found[..i]), WorkloadNode(c, found[i]);
    assert WorkloadNodes(c, found[..i + 1]) == ns + [n];
    assert (ns + [n])[..|ns|] == ns;
  }

  lemma ScopeStep(g: Graph, c: Text, found: seq<KubeWorkload>, i: nat)
    requires i < |found|
    ensures var now := g.WithoutEdges(WorkloadScope(WorkloadIDSet(c, found[..i]))).WithAll(WorkloadNodes(c, found[..i]), []);
            now.WithoutEdges(WorkloadScope({WorkloadID(c, found[i])})).WithNode(WorkloadNode(c, found[i])) ==
            g.WithoutEdges(WorkloadScope(WorkloadIDSet(c, found[..i + 1]))).WithAll(WorkloadNodes(c, found[..i + 1]), [])
  {
    hide WorkloadNodes, WorkloadScope, WorkloadID, WorkloadIDSet, ToNodes;
    WorkloadNodesStep(g.nodes, c, found, i);
    WorkloadIDSetStep(c, found, i);
    ScopesAdd(g.edges, WorkloadIDSet(c, found[..i]), WorkloadID(c, found[i]));
    assert forall m: EdgeMap :: m + map[] == m;
  }

  lemma EmptyScope(g: Graph)
    ensures g.WithoutEdges(WorkloadScope({})) == g && g.WithAll([], []) == g
  {
  }

  // ---- Deleting ----

  /** The edges at the node among those seen so far. */
  ghost function SeenAt(g: Graph, seen: seq<Edge>, id: CanonicalID): set<EdgeKey> {
    set k | k in g.edges && g.edges[k] in seen && TouchesKey(k, id)
  }

  lemma SeenAtStep(g: Graph, seen: seq<Edge>, edge: Edge, id: CanonicalID)
    requires g.Valid() && edge.Triple() in g.edges && g.edges[edge.Triple()] == edge && edge !in seen
    ensures |SeenAt(g, seen + [edge], id)| == |SeenAt(g, seen, id)| + if TouchesKey(edge.Triple(), id) then 1 else 0
  {
    var more := if TouchesKey(edge.Triple(), id) then {edge.Triple()} else {};
    assert SeenAt(g, seen + [edge], id) == SeenAt(g, seen, id) + more;
  }

  lemma SplitSize<T>(all: set<T>, left: set<T>, gone: set<T>)
    requires all == left + gone && left !! gone
    ensures |gone| == |all| - |left|
  {
  }

  lemma SeenAtSplits(g: Graph, seen: seq<Edge>, id: CanonicalID)
    requires forall k | k in g.edges :: g.edges[k] in seen
    ensures var left := g.WithoutNodes({id}).edges.Keys;
            g.edges.Keys == left + SeenAt(g, seen, id) && left !! SeenAt(g, seen, id)
  {
  }

  lemma SeenAtEnds(g: Graph, seen: seq<Edge>, id: CanonicalID)
    requires forall k | k in g.edges :: g.edges[k] in seen
    ensures |SeenAt(g, seen, id)| == |g.edges| - |g.WithoutNodes({id}).edges|
  {
    hide SeenAt, Graph.WithoutNodes;
    SeenAtSplits(g, seen, id);
    SplitSize(g.edges.Keys, g.WithoutNodes({id}).edges.Keys, SeenAt(g, seen, id));
  }

  /** What deleting the node would take along. */
  method IncidentEdgeCount(kernel: Kernel, id: CanonicalID) returns (count: nat)
    requires kernel.Valid()
    ensures count == |kernel.View().edges| - |kernel.View().WithoutNodes({id}).edges|
  {
    hide Kernel.Valid, Kernel.View, Graph.WithoutNodes, SeenAt;
    var listed := kernel.ListEdges();
    ghost var g := kernel.View();
    count := 0;
    assert SeenAt(g, listed[..0], id) == {} by { NothingSeenAt(g, id); }
    for i := 0 to |listed|
      invariant count == |SeenAt(g, listed[..i], id)|
    {
      PrefixStep(listed, i);
      SeenAtStep(g, listed[..i], listed[i], id);
      if listed[i].from == id || listed[i].to == id {
        count := count + 1;
      }
    }
    PrefixEnds(listed);
    SeenAtEnds(g, listed, id);
  }

  lemma NothingSeenAt(g: Graph, id: CanonicalID)
    ensures SeenAt(g, [], id) == {}
  {
  }

  /** What is left of the graph without those gone, with the counts so far. */
  ghost predicate Deleted(g: Graph, now: Graph, gone: set<CanonicalID>, edges: nat, nodes: nat) {
    && now == g.WithoutNodes(gone) && (nodes == 0 ==> gone == {})
    && edges == |g.edges| - |now.edges| && nodes == |g.nodes| - |now.nodes|
  }

  lemma DeletedOneMore(g: Graph, now: Graph, gone: set<CanonicalID>, edges: nat, nodes: nat, id: CanonicalID, incident: nat)
    requires Deleted(g, now, gone, edges, nodes) && id in g.nodes && id !in gone
    requires incident == |now.edges| - |now.WithoutNodes({id}).edges|
    ensures Deleted(g, now.WithoutNodes({id}), gone + {id}, edges + incident, nodes + 1)
  {
    hide Graph.WithoutNodes;
    NodesLeftStep(g, now, gone, id);
  }

  /** How far the deletion has come when the given nodes have been looked at. */
  ghost predicate Progress(g: Graph, now: Graph, seen: seq<Node>, doomed: Node -> bool, gone: set<CanonicalID>, edges: nat, nodes: nat) {
    Swept(g, seen, doomed, gone) && Deleted(g, now, gone, edges, nodes)
  }

  lemma ProgressBegins(g: Graph, doomed: Node -> bool)
    ensures Progress(g, g, [], doomed, {}, 0, 0)
  {
    NothingSwept(g, doomed);
  }

  lemma ProgressSkips(g: Graph, now: Graph, seen: seq<Node>, node: Node, doomed: Node -> bool, gone: set<CanonicalID>, edges: nat, nodes: nat)
    requires g.Valid() && Progress(g, now, seen, doomed, gone, edges, nodes) && !doomed(node)
    requires node.id in g.nodes && g.nodes[node.id] == node && node !in seen
    ensures Progress(g, now, seen + [node], doomed, gone, edges, nodes)
  {
    SweptStep(g, seen, node, doomed, gone);
    hide Swept, Deleted;
  }

  lemma ProgressDeletes(g: Graph, now: Graph, seen: seq<Node>, node: Node, doomed: Node -> bool, gone: set<CanonicalID>, edges: nat, nodes: nat,
                        incident: nat, now': Graph)
    requires g.Valid() && Progress(g, now, seen, doomed, gone, edges, nodes) && doomed(node)
    requires node.id in g.nodes && g.nodes[node.id] == node && node !in seen
    requires now' == now.WithoutNodes({node.id}) && incident == |now.edges| - |now'.edges|
    ensures Progress(g, now', seen + [node], doomed, gone + {node.id}, edges + incident, nodes + 1)
  {
    SweptStep(g, seen, node, doomed, gone);
    hide Swept, Deleted, Graph.WithoutNodes;
    DeletedOneMore(g, now, gone, edges, nodes, node.id, incident);
  }

  lemma ProgressEnds(g: Graph, now: Graph, listed: seq<Node>, doomed: Node -> bool, gone: set<CanonicalID>, edges: nat, nodes: nat)
    requires Progress(g, now, listed, doomed, gone, edges, nodes) && forall id | id in g.nodes :: g.nodes[id] in listed
    ensures now == g.WithoutNodes(Doomed(g, doomed)) && edges == |g.edges| - |now.edges| && nodes == |g.nodes| - |now.nodes|
    ensures nodes == 0 ==> edges == 0
  {
    SweptAll(g, listed, doomed, gone);
    DeletedCounts(g, now, gone, edges, nodes);
  }

  /** Deletes a node, counting the edges that go with it. */
  method DeleteCounted(kernel: Kernel, id: CanonicalID) returns (incident: nat)
    requires kernel.Valid()
    modifies kernel.store
    ensures kernel.Valid() && kernel.View() == old(kernel.View()).WithoutNodes({id})
    ensures incident == |old(kernel.View()).edges| - |kernel.View().edges|
  {
    hide Kernel.Valid, Kernel.View, Graph.WithoutNodes;
    incident := IncidentEdgeCount(kernel, id);
    kernel.DeleteNode(id);
  }

  /** Deletes every workload of the name that is not kept, counting nodes and edges. */
  method DeleteWorkloadNodes(kernel: Kernel, namespace: Text, name: Text, keep: set<CanonicalID>) returns (deletedEdges: nat, deletedNodes: nat)
    requires kernel.Valid()
    modifies kernel.store
    ensures kernel.Valid()
    ensures kernel.View() == old(kernel.View()).WithoutNodes(StaleWorkloads(old(kernel.View()), namespace, name, keep))
    ensures deletedEdges == |old(kernel.View()).edges| - |kernel.View().edges|
    ensures deletedNodes == |old(kernel.View()).nodes| - |kernel.View().nodes|
    ensures deletedNodes == 0 ==> deletedEdges == 0
  {
    hide Kernel.Valid, Kernel.View, Graph.WithoutNodes, Progress, Doomed, StaleWorkload, NodesOnce;
    ghost var g := kernel.View();
    var listed := kernel.ListNodes();
    ghost var gone: set<CanonicalID> := {};
    var doomed := StaleWorkload(namespace, name, keep);
    deletedEdges, deletedNodes := 0, 0;
    ProgressBegins(g, doomed);
    for i := 0 to |listed|
      invariant kernel.Valid() && Progress(g, kernel.View(), listed[..i], doomed, gone, deletedEdges, deletedNodes)
    {
      var node := listed[i];
      PrefixStep(listed, i);
      NodesOnceAt(g, listed, i);
      ghost var now := kernel.View();
      if doomed(node) {
        var incident := DeleteCounted(kernel, node.id);
        ProgressDeletes(g, now, listed[..i], node, doomed, gone, deletedEdges, deletedNodes, incident, kernel.View());
        deletedEdges, deletedNodes := deletedEdges + incident, deletedNodes + 1;
        gone := gone + {node.id};
      } else {
        ProgressSkips(g, now, listed[..i], node, doomed, gone, deletedEdges, deletedNodes);
      }
    }
    PrefixEnds(listed);
    NodesOnceAll(g, listed);
    ProgressEnds(g, kernel.View(), listed, doomed, gone, deletedEdges, deletedNodes);
  }

  lemma DeletedCounts(g: Graph, now: Graph, gone: set<CanonicalID>, edges: nat, nodes: nat)
    requires Deleted(g, now, gone, edges, nodes)
    ensures now == g.WithoutNodes(gone) && edges == |g.edges| - |now.edges| && nodes == |g.nodes| - |now.nodes|
    ensures nodes == 0 ==> edges == 0
  {
    NothingDropped(g);
  }

  /** Clears the scope of each workload found and upserts its node. */
  method PrepareWorkloads(kernel: Kernel, c: Text, found: seq<KubeWorkload>) returns (deletedEdges: nat)
    requires kernel.Valid()
    modifies kernel.store
    ensures kernel.Valid()
    ensures kernel.View() == old(kernel.View()).WithoutEdges(WorkloadScope(WorkloadIDSet(c, found))).WithAll(WorkloadNodes(c, found), [])
    ensures deletedEdges == |old(kernel.View()).edges| - |kernel.View().edges|
  {
    hide Kernel.Valid, Kernel.View, WorkloadScope, Graph.WithoutEdges, Graph.WithAll, WorkloadNode, WorkloadID;
    ghost var g := kernel.View();
    EmptyScope(g);
    assert WorkloadIDSet(c, found[..0]) == {} && WorkloadNodes(c, found[..0]) == [];
    deletedEdges := 0;
    for i := 0 to |found|
      invariant kernel.Valid()
      invariant kernel.View() == g.WithoutEdges(WorkloadScope(WorkloadIDSet(c, found[..i]))).WithAll(WorkloadNodes(c, found[..i]), [])
      invariant deletedEdges == |g.edges| - |kernel.View().edges|
    {
      ScopeStep(g, c, found, i);
      var deleted := DeleteEdgesWhere(kernel, WorkloadScope({WorkloadID(c, found[i])}));
      kernel.UpsertNode(WorkloadNode(c, found[i]));
      deletedEdges := deletedEdges + deleted;
    }
    PrefixEnds(found);
  }

  method Apply(kernel: Kernel, c: Text, s: Snapshot, namespace: Text, name: Text, change: ChangeType)
    returns (out: Outcome<WorkloadApplyResult>, ghost evidence: seq<Edge>)
    requires kernel.Valid()
    modifies kernel.store
    ensures kernel.Valid() && kernel.View() == Reconciled(old(kernel.View()), c, s, namespace, name, change, evidence)
    ensures out.Failed? <==> namespace == "" || name == ""
    ensures !out.Failed? && Kept(c, s, namespace, name, change) != [] ==>
      IsWorkloadEvidence(evidence, c, s, WorkloadIDSet(c, Kept(c, s, namespace, name, change)),
                         Prepared(old(kernel.View()), c, s, namespace, name, change).nodes)
    ensures out.Done? ==> (out.result.deleted <==> Kept(c, s, namespace, name, change) == [])
    ensures out.Done? ==>
      var g := old(kernel.View());
      var stale := StaleWorkloads(g, namespace, name, WorkloadIDSet(c, Kept(c, s, namespace, name, change)));
      out.result.deletedNodes == |g.nodes| - |g.WithoutNodes(stale).nodes|
    ensures out.Done? ==>
      out.result.deletedEdges == |old(kernel.View()).edges| - |Prepared(old(kernel.View()), c, s, namespace, name, change).edges|
    ensures out.Done? && out.result.deleted ==> out.result.upsertedEdges == 0 && (out.result.applied <==> out.result.deletedNodes > 0)
    ensures out.Done? && !out.result.deleted ==>
      var ids := WorkloadIDSet(c, Kept(c, s, namespace, name, change));
      && out.result.applied
      && out.result.upsertedEdges ==
           |RebuiltWorkloadEdges(c, s, ids, Prepared(old(kernel.View()), c, s, namespace, name, change).nodes, evidence)|
  {
    hide Kernel.Valid, Kernel.View, WorkloadScope, Graph.WithAll, WorkloadNodes, WorkloadIDSet, RebuiltWorkloadEdges, IsWorkloadEvidence,
         FindWorkloads, StaleWorkload;
    evidence := [];
    if namespace == "" || name == "" {
      return Failed("workload reconcile requires namespace and name"), [];
    }
    ghost var g := kernel.View();
    var found := FindWorkloads(s.workloads, namespace, name);
    if change == ChangeDelete || |found| == 0 {
      var deletedEdges, deletedNodes := DeleteWorkloadNodes(kernel, namespace, name, {});
      NothingKept(kernel.View(), c);
      return Done(WorkloadApplyResult(deletedNodes > 0 || deletedEdges > 0, true, 0, deletedEdges, deletedNodes)), [];
    }
    var ids := WorkloadIDSet(c, found);
    var deletedEdges, deletedNodes := DeleteWorkloadNodes(kernel, namespace, name, ids);
    var scoped := PrepareWorkloads(kernel, c, found);
    var upserted;
    upserted, evidence := RebuildWorkloadEdges(kernel, c, s, ids);
    return Done(WorkloadApplyResult(true, false, upserted, deletedEdges + scoped, deletedNodes)), evidence;
  }

  lemma NothingKept(g: Graph, c: Text)
    ensures WorkloadIDSet(c, []) == {} && g.WithoutEdges(WorkloadScope({})).WithAll(WorkloadNodes(c, []), []) == g
  {
    EmptyScope(g);
  }
}
