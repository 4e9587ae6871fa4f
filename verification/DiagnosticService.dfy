/** The layered breadth-first traversal that answers diagnostic queries. */
module DiagnosticService {
  import opened Identity
  import opened GraphModel
  import opened Kernel
  import opened Diagnostic

  datatype QueryError = EntryKindRequired | EntryIDRequired | EntryNotFound

  datatype QueryResult = Ok(subgraph: Subgraph) | Err(error: QueryError)

  datatype Subgraph = Subgraph(nodes: seq<Node>, edges: seq<Edge>, truncationReasons: seq<string>, partial: bool)

  /** The local variables of the traversal; `next` is the next frontier. */
  datatype State = State(
    nodes: seq<Node>, edges: seq<Edge>, seenNodes: set<CanonicalID>, seenEdges: set<EdgeKey>,
    overNodes: bool, overEdges: bool, next: seq<CanonicalID>)

  ghost function IDsOf(nodes: seq<Node>): set<CanonicalID> {
    set i | 0 <= i < |nodes| :: nodes[i].id
  }

  ghost function KeysOf(edges: seq<Edge>): set<EdgeKey> {
    set i | 0 <= i < |edges| :: edges[i].Triple()
  }

  /** The listed nodes and edges are the graph's own, each once, the root first. */
  ghost predicate ListsGraph(g: Graph, q: Query, nodes: seq<Node>, edges: seq<Edge>) {
    && nodes != [] && nodes[0] == q.root
    && (forall n | n in nodes :: n.id in g.nodes && g.nodes[n.id] == n)
    && (forall e | e in edges :: e.Triple() in g.edges && g.edges[e.Triple()] == e)
    && (forall i, j | 0 <= i < j < |nodes| :: nodes[i].id != nodes[j].id)
    && (forall i, j | 0 <= i < j < |edges| :: edges[i].Triple() != edges[j].Triple())
  }

  ghost predicate LinkedBack(nodes: seq<Node>, edges: seq<Edge>, j: nat)
    requires j < |nodes|
  {
    exists i, e | 0 <= i < j && e in edges :: e.Touches(nodes[i].id) && e.Touches(nodes[j].id)
  }

  /** Every node but the root has an edge to a node listed before it. */
  ghost predicate Connected(nodes: seq<Node>, edges: seq<Edge>) {
    forall j | 1 <= j < |nodes| :: LinkedBack(nodes, edges, j)
  }

  ghost predicate NoDanglingEdges(g: Graph) {
    forall k | k in g.edges :: k.from in g.nodes && k.to in g.nodes
  }

  /** Every listed edge has those endpoints listed that exist at all. */
  ghost predicate EndsSeen(g: Graph, s: State) {
    forall k | k in s.seenEdges :: (k.from in g.nodes ==> k.from in s.seenNodes) && (k.to in g.nodes ==> k.to in s.seenNodes)
  }

  ghost predicate OverBudget(g: Graph, q: Query) {
    |Closure(g, q)| > q.policy.maxNodes || |ClosureEdges(g, q)| > q.policy.maxEdges
  }

  /** What is listed: distinct, connected, within the caps, and the seen sets mirror the lists. */
  ghost predicate Listing(g: Graph, q: Query, s: State) {
    && ListsGraph(g, q, s.nodes, s.edges) && Connected(s.nodes, s.edges)
    && s.seenNodes == IDsOf(s.nodes) && |s.seenNodes| == |s.nodes| <= q.policy.maxNodes
    && s.seenEdges == KeysOf(s.edges) && |s.seenEdges| == |s.edges| <= q.policy.maxEdges
  }

  /** Why it is listed: an admissible walk leads there, and a raised flag has a cause. */
  ghost predicate Justified(g: Graph, q: Query, s: State, depthOf: map<CanonicalID, nat>, depth: nat) {
    && Sound(g, q, depthOf, s.seenEdges) && depthOf.Keys == s.seenNodes && EndsSeen(g, s)
    && (s.overNodes ==> |Closure(g, q)| > q.policy.maxNodes)
    && (s.overEdges ==> |ClosureEdges(g, q)| > q.policy.maxEdges)
    && (forall v | v in depthOf :: depthOf[v] <= depth + 1)
    && (forall v :: v in s.next <==> v in depthOf && depthOf[v] == depth + 1)
  }

  predicate Truncated(s: State) { s.overNodes || s.overEdges }

  /** The traversal only ever adds to what it has listed, at the next depth. */
  ghost predicate Grows(s: State, d: map<CanonicalID, nat>, s': State, d': map<CanonicalID, nat>) {
    && d.Keys <= d'.Keys && (forall v | v in d :: d'[v] == d[v])
    && (forall v | v in d' && v !in d :: v in s'.next)
    && s.seenEdges <= s'.seenEdges && (Truncated(s) ==> Truncated(s'))
  }

  /** The edge `k` has been dealt with from `u`, unless a budget got in the way. */
  ghost predicate Covered(g: Graph, s: State, d: map<CanonicalID, nat>, u: CanonicalID, k: EdgeKey)
    requires u in d
  {
    Truncated(s) || (k in s.seenEdges && (OtherEnd(k, u) in g.nodes ==> OtherEnd(k, u) in d && d[OtherEnd(k, u)] <= d[u] + 1))
  }

  lemma CoveredGrows(g: Graph, s: State, d: map<CanonicalID, nat>, s': State, d': map<CanonicalID, nat>,
                     u: CanonicalID, k: EdgeKey)
    requires u in d && Covered(g, s, d, u, k) && Grows(s, d, s', d')
    ensures Covered(g, s', d', u, k)
  {
  }

  /** The side-effect free decisions, answered through the kernel. */
  method IsTerminalCSINodeOf(kernel: Kernel, node: Node) returns (terminal: bool)
    requires kernel.Valid()
    ensures terminal <==> IsTerminalCSINode(kernel.View(), node)
  {
    if node.kind != Pod {
      return false;
    }
    var neighbors := kernel.Neighbors(node.id);
    for i := 0 to |neighbors|
      invariant forall j | 0 <= j < i :: !IsCSIComponentKind(neighbors[j].kind)
    {
      if IsCSIComponentKind(neighbors[i].kind) {
        assert neighbors[i].Triple() in kernel.View().edges;
        return true;
      }
    }
    terminal := false;
    forall k | k in kernel.View().edges && TouchesKey(k, node.id)
      ensures !IsCSIComponentKind(k.kind)
    {
      assert kernel.View().edges[k] in neighbors;
    }
  }

  method IsTerminalNode(kernel: Kernel, q: Query, node: Node) returns (terminal: bool)
    requires kernel.Valid()
    ensures terminal <==> IsTerminal(kernel.View(), q, node)
  {
    if q.policy.expandTerminalNodes {
      return false;
    }
    var component := IsTerminalCSINodeOf(kernel, node);
    if component {
      return true;
    }
    if node.id != q.root.id && q.root.kind == Pod && node.kind == Pod {
      return true;
    }
    terminal := node.kind in q.policy.terminalKinds;
  }

  method CsiAgentMatchesRootPodNode(kernel: Kernel, agentID: CanonicalID, root: Node) returns (matches: bool)
    requires kernel.Valid()
    ensures matches <==> AgentMatchesRootPodNode(kernel.View(), agentID, root)
  {
    if NodeNameOf(root) == "" {
      return false;
    }
    var agent, ok := kernel.GetNode(agentID);
    matches := ok && NodeNameOf(agent) == NodeNameOf(root);
  }

  method ShouldTraverseFrom(kernel: Kernel, q: Query, current: Node, edge: Edge, depth: int) returns (admitted: bool)
    requires kernel.Valid()
    ensures admitted <==> Admits(kernel.View(), q, current, edge.Triple(), depth)
  {
    if !ShouldTraverse(edge.kind, depth, q.policy) {
      return false;
    }
    match current.kind
    case HelmRelease =>
      admitted := (edge.from == current.id && edge.kind == InstallsChart)
        || (q.root.kind == HelmRelease && edge.to == current.id && edge.kind == ManagedByHelmRelease);
    case StorageClass =>
      admitted := edge.from == current.id && edge.kind == ProvisionedByCSIDriver;
    case PV =>
      if edge.kind == ServedByCSINodeAgent && q.root.kind == Pod {
        var matches := CsiAgentMatchesRootPodNode(kernel, edge.to, q.root);
        return edge.from == current.id && matches;
      }
      admitted := true;
    case CSIDriver =>
      admitted := edge.from == current.id
        && (edge.kind == ImplementedByCSIController
            || (edge.kind == ImplementedByCSINodeAgent && ShouldTraverseDriverNodeAgents(q.root.kind)));
    case _ =>
      admitted := true;
  }

  /** `unseen` holds the other end of the edge when that exists and is not listed. */
  ghost predicate IsUnseen(g: Graph, seen: set<CanonicalID>, current: CanonicalID, edge: Edge, unseen: seq<Node>) {
    var v := OtherEnd(edge.Triple(), current);
    && edge.Triple() in g.edges && g.edges[edge.Triple()] == edge && edge.Touches(current)
    && (v in g.nodes ==> g.nodes[v].id == v)
    && unseen == if v in g.nodes && v !in seen then [g.nodes[v]] else []
  }

  /** The endpoints of an edge that exist and are not listed yet. */
  method NewNodes(kernel: Kernel, edge: Edge, seen: set<CanonicalID>, ghost current: CanonicalID) returns (unseen: seq<Node>)
    requires kernel.Valid() && edge.Touches(current) && current in seen
    requires edge.Triple() in kernel.View().edges && kernel.View().edges[edge.Triple()] == edge
    ensures IsUnseen(kernel.View(), seen, current, edge, unseen)
  {
    unseen := [];
    var ends := [edge.from, edge.to];
    for i := 0 to 2
      invariant unseen == (if i >= 1 && ends[0] in kernel.View().nodes && ends[0] !in seen then [kernel.View().nodes[ends[0]]] else [])
                       + (if i >= 2 && ends[1] in kernel.View().nodes && ends[1] !in seen then [kernel.View().nodes[ends[1]]] else [])
    {
      if ends[i] !in seen {
        var node, ok := kernel.GetNode(ends[i]);
        if ok {
          unseen := unseen + [node];
        }
      }
    }
  }

  /** A growing listing keeps its connections. */
  lemma LinksGrow(nodes: seq<Node>, edges: seq<Edge>, nodes': seq<Node>, edges': seq<Edge>)
    requires Connected(nodes, edges) && nodes <= nodes' && edges <= edges'
    ensures forall j | 1 <= j < |nodes| :: LinkedBack(nodes', edges', j)
  {
    forall j | 1 <= j < |nodes|
      ensures LinkedBack(nodes', edges', j)
    {
      assert LinkedBack(nodes, edges, j);
      var i, e :| 0 <= i < j && e in edges && e.Touches(nodes[i].id) && e.Touches(nodes[j].id);
      assert e in edges' && nodes'[i] == nodes[i] && nodes'[j] == nodes[j];
    }
  }

  lemma AppendEdge(g: Graph, q: Query, nodes: seq<Node>, edges: seq<Edge>, edge: Edge)
    requires ListsGraph(g, q, nodes, edges) && Connected(nodes, edges)
    requires edge.Triple() in g.edges && g.edges[edge.Triple()] == edge && edge.Triple() !in KeysOf(edges)
    ensures ListsGraph(g, q, nodes, edges + [edge]) && Connected(nodes, edges + [edge])
  {
    LinksGrow(nodes, edges, nodes, edges + [edge]);
  }

  /** A new node is appended only next to an edge that joins it to a listed one. */
  lemma AppendNode(g: Graph, q: Query, nodes: seq<Node>, edges: seq<Edge>, node: Node, edge: Edge, current: CanonicalID)
    requires ListsGraph(g, q, nodes, edges) && Connected(nodes, edges)
    requires node.id in g.nodes && g.nodes[node.id] == node && node.id !in IDsOf(nodes)
    requires edge in edges && edge.Touches(current) && edge.Touches(node.id) && current in IDsOf(nodes)
    ensures ListsGraph(g, q, nodes + [node], edges) && Connected(nodes + [node], edges)
  {
    var c :| 0 <= c < |nodes| && nodes[c].id == current;
    var nodes' := nodes + [node];
    LinksGrow(nodes, edges, nodes', edges);
    assert nodes'[c] == nodes[c] && nodes'[|nodes|] == node;
    assert LinkedBack(nodes', edges, |nodes|);
    forall i, j | 0 <= i < j < |nodes'|
      ensures nodes'[i].id != nodes'[j].id
    {
      if j == |nodes| {
        assert nodes[i].id in IDsOf(nodes);
      }
    }
  }

  lemma ListedEdge(edges: seq<Edge>, g: Graph, edge: Edge)
    requires edge.Triple() in KeysOf(edges) && edge.Triple() in g.edges && g.edges[edge.Triple()] == edge
    requires forall e | e in edges :: e.Triple() in g.edges && g.edges[e.Triple()] == e
    ensures edge in edges
  {
    var i :| 0 <= i < |edges| && edges[i].Triple() == edge.Triple();
    assert edges[i] in edges;
  }

  lemma IDsGrow(nodes: seq<Node>, nodes': seq<Node>)
    requires nodes <= nodes'
    ensures IDsOf(nodes) <= IDsOf(nodes')
    ensures |nodes'| == |nodes| + 1 ==> IDsOf(nodes') == IDsOf(nodes) + {nodes'[|nodes|].id}
  {
    forall id | id in IDsOf(nodes)
      ensures id in IDsOf(nodes')
    {
      var i :| 0 <= i < |nodes| && nodes[i].id == id;
      assert nodes'[i].id == id;
    }
    if |nodes'| == |nodes| + 1 {
      assert nodes'[|nodes|].id in IDsOf(nodes');
      forall id | id in IDsOf(nodes')
        ensures id in IDsOf(nodes) + {nodes'[|nodes|].id}
      {
        var i :| 0 <= i < |nodes'| && nodes'[i].id == id;
        assert i < |nodes| ==> nodes[i].id == id;
      }
    }
  }

  lemma KeysGrow(edges: seq<Edge>, edge: Edge)
    ensures KeysOf(edges + [edge]) == KeysOf(edges) + {edge.Triple()}
  {
    var edges' := edges + [edge];
    assert edges'[|edges|].Triple() in KeysOf(edges');
    forall i | 0 <= i < |edges|
      ensures edges[i].Triple() in KeysOf(edges')
    {
      assert edges'[i] == edges[i];
    }
  }

  lemma ListingWithEdge(g: Graph, q: Query, s: State, edge: Edge)
    requires Listing(g, q, s) && edge.Triple() in g.edges && g.edges[edge.Triple()] == edge
    requires edge.Triple() !in s.seenEdges && |s.edges| < q.policy.maxEdges
    ensures Listing(g, q, s.(edges := s.edges + [edge], seenEdges := s.seenEdges + {edge.Triple()}))
  {
    KeysGrow(s.edges, edge);
    AppendEdge(g, q, s.nodes, s.edges, edge);
  }

  lemma ListingWithNode(g: Graph, q: Query, s: State, current: CanonicalID, edge: Edge, node: Node)
    requires Listing(g, q, s) && current in s.seenNodes && edge.Touches(current)
    requires edge.Triple() in s.seenEdges && edge.Triple() in g.edges && g.edges[edge.Triple()] == edge
    requires node.id == OtherEnd(edge.Triple(), current) && node.id in g.nodes && g.nodes[node.id] == node
    requires node.id !in s.seenNodes && |s.nodes| < q.policy.maxNodes
    ensures Listing(g, q, s.(nodes := s.nodes + [node], seenNodes := s.seenNodes + {node.id}, next := s.next + [node.id]))
  {
    ListedEdge(s.edges, g, edge);
    IDsGrow(s.nodes, s.nodes + [node]);
    AppendNode(g, q, s.nodes, s.edges, node, edge, current);
  }

  lemma SoundGrows(g: Graph, q: Query, depthOf: map<CanonicalID, nat>, edges: set<EdgeKey>, k: EdgeKey, depth: nat)
    requires Sound(g, q, depthOf, edges) && k in g.edges && ExposedAt(g, q, k, depth)
    ensures Sound(g, q, depthOf, edges + {k})
    ensures forall v | v in g.nodes && v !in depthOf && ReachedAt(g, q, v, depth + 1) ::
              Sound(g, q, depthOf[v := depth + 1], edges + {k})
  {
    hide ReachedAt, ExposedAt;
  }

  /** A refused node shows that the unbounded closure has more nodes than are listed. */
  lemma NodeRefusalHasCause(g: Graph, q: Query, s: State, depthOf: map<CanonicalID, nat>, v: CanonicalID, depth: nat)
    requires Sound(g, q, depthOf, s.seenEdges) && depthOf.Keys == s.seenNodes
    requires v in g.nodes && v !in s.seenNodes && ReachedAt(g, q, v, depth)
    ensures |s.seenNodes| < |Closure(g, q)|
  {
    SoundIsWithinClosure(g, q, depthOf, s.seenEdges);
    assert v in Closure(g, q);
    hide Sound, ReachedAt, Closure, ClosureEdges;
    SubsetSize(s.seenNodes + {v}, Closure(g, q));
  }

  /** A refused edge shows that it has more edges. */
  lemma EdgeRefusalHasCause(g: Graph, q: Query, s: State, depthOf: map<CanonicalID, nat>, k: EdgeKey, depth: nat)
    requires Sound(g, q, depthOf, s.seenEdges) && k in g.edges && k !in s.seenEdges && ExposedAt(g, q, k, depth)
    ensures |s.seenEdges| < |ClosureEdges(g, q)|
  {
    SoundIsWithinClosure(g, q, depthOf, s.seenEdges);
    assert k in ClosureEdges(g, q);
    hide Sound, ExposedAt, Closure, ClosureEdges;
    SubsetSize(s.seenEdges + {k}, ClosureEdges(g, q));
  }

  lemma AcceptedEdge(g: Graph, q: Query, s: State, d: map<CanonicalID, nat>, s': State, d': map<CanonicalID, nat>,
                     depth: nat, current: CanonicalID, k: EdgeKey)
    requires Justified(g, q, s, d, depth) && current in d && d[current] == depth
    requires k in g.edges && TouchesKey(k, current)
    requires s'.seenEdges == s.seenEdges + {k} && s'.overNodes == s.overNodes && s'.overEdges == s.overEdges
    requires var v := OtherEnd(k, current);
             if v in g.nodes && v !in s.seenNodes
             then s'.seenNodes == s.seenNodes + {v} && s'.next == s.next + [v] && d' == d[v := depth + 1]
             else s'.seenNodes == s.seenNodes && s'.next == s.next && d' == d
    requires Sound(g, q, d', s'.seenEdges)
    ensures Justified(g, q, s', d', depth) && Grows(s, d, s', d') && Covered(g, s', d', current, k)
  {
    hide Sound, KeyString;
    var v := OtherEnd(k, current);
    assert k.from == current || k.from == v;
    assert k.to == current || k.to == v;
    assert forall u :: u in s'.next <==> u in s.next || (v in g.nodes && v !in s.seenNodes && u == v);
  }

  lemma RefusedEdge(g: Graph, q: Query, s: State, d: map<CanonicalID, nat>, s': State, depth: nat, current: CanonicalID, k: EdgeKey)
    requires Justified(g, q, s, d, depth) && current in d
    requires (s' == s.(overNodes := true) && |Closure(g, q)| > q.policy.maxNodes)
             || (s' == s.(overEdges := true) && |ClosureEdges(g, q)| > q.policy.maxEdges)
    ensures Justified(g, q, s', d, depth) && Grows(s, d, s', d) && Covered(g, s', d, current, k)
  {
  }

  /** What one admitted edge does to the local variables; `unseen` holds its new node, if any. */
  function Visit(q: Query, s: State, edge: Edge, unseen: seq<Node>): State {
    if |s.nodes| + |unseen| > q.policy.maxNodes then s.(overNodes := true)
    else if edge.Triple() !in s.seenEdges && |s.edges| >= q.policy.maxEdges then s.(overEdges := true)
    else WithUnseen(WithEdge(s, edge), unseen)
  }

  function WithEdge(s: State, edge: Edge): State {
    if edge.Triple() in s.seenEdges then s
    else s.(edges := s.edges + [edge], seenEdges := s.seenEdges + {edge.Triple()})
  }

  function WithUnseen(s: State, unseen: seq<Node>): State {
    if unseen == [] then s
    else s.(nodes := s.nodes + [unseen[0]], seenNodes := s.seenNodes + {unseen[0].id}, next := s.next + [unseen[0].id])
  }

  ghost function Deepen(d: map<CanonicalID, nat>, s: State, s': State, v: CanonicalID, depth: nat): map<CanonicalID, nat> {
    if s'.seenNodes == s.seenNodes then d else d[v := depth + 1]
  }

  lemma AcceptedListing(g: Graph, q: Query, s: State, current: CanonicalID, edge: Edge, unseen: seq<Node>)
    requires Listing(g, q, s) && IsUnseen(g, s.seenNodes, current, edge, unseen) && current in s.seenNodes
    requires |s.nodes| + |unseen| <= q.policy.maxNodes
    requires edge.Triple() in s.seenEdges || |s.edges| < q.policy.maxEdges
    ensures Listing(g, q, WithUnseen(WithEdge(s, edge), unseen))
  {
    if edge.Triple() !in s.seenEdges {
      ListingWithEdge(g, q, s, edge);
    }
    if unseen != [] {
      ListingWithNode(g, q, WithEdge(s, edge), current, edge, unseen[0]);
    }
  }

  /** What an accepted edge adds. */
  lemma VisitedState(g: Graph, s: State, current: CanonicalID, edge: Edge, unseen: seq<Node>)
    requires IsUnseen(g, s.seenNodes, current, edge, unseen)
    ensures var s', v := WithUnseen(WithEdge(s, edge), unseen), OtherEnd(edge.Triple(), current);
            && edge.Triple() in g.edges && TouchesKey(edge.Triple(), current)
            && s'.seenEdges == s.seenEdges + {edge.Triple()} && s'.overNodes == s.overNodes && s'.overEdges == s.overEdges
            && (if v in g.nodes && v !in s.seenNodes
                then s'.seenNodes == s.seenNodes + {v} && s'.seenNodes != s.seenNodes && s'.next == s.next + [v]
                else s'.seenNodes == s.seenNodes && s'.next == s.next)
  {
    hide KeyString;
    var s1 := WithEdge(s, edge);
    assert s1.seenEdges == s.seenEdges + {edge.Triple()} && s1.seenNodes == s.seenNodes;
  }

  lemma AcceptedJustified(g: Graph, q: Query, s: State, d: map<CanonicalID, nat>, depth: nat,
                          current: CanonicalID, edge: Edge, unseen: seq<Node>)
    requires Justified(g, q, s, d, depth) && IsUnseen(g, s.seenNodes, current, edge, unseen)
    requires current in d && d[current] == depth && Opens(g, q, current, edge.Triple(), depth)
    ensures var s' := WithUnseen(WithEdge(s, edge), unseen);
            var d' := Deepen(d, s, s', OtherEnd(edge.Triple(), current), depth);
            && Justified(g, q, s', d', depth)
            && Grows(s, d, s', d') && Covered(g, s', d', current, edge.Triple())
  {
    var k, v := edge.Triple(), OtherEnd(edge.Triple(), current);
    var s' := WithUnseen(WithEdge(s, edge), unseen);
    VisitedState(g, s, current, edge, unseen);
    ReachExtends(g, q, current, k, depth);
    SoundGrows(g, q, d, s.seenEdges, k, depth);
    hide Sound, Grows, Covered, WithUnseen, WithEdge, IsUnseen, ReachedAt, ExposedAt, KeyString, IsTerminal, Admits;
    assert Sound(g, q, Deepen(d, s, s', v, depth), s'.seenEdges);
    AcceptedEdge(g, q, s, d, s', Deepen(d, s, s', v, depth), depth, current, k);
    hide Justified;
  }

  lemma VisitIsRight(g: Graph, q: Query, s: State, d: map<CanonicalID, nat>, depth: nat,
                     current: CanonicalID, edge: Edge, unseen: seq<Node>)
    requires Listing(g, q, s) && Justified(g, q, s, d, depth) && IsUnseen(g, s.seenNodes, current, edge, unseen)
    requires current in d && d[current] == depth && Opens(g, q, current, edge.Triple(), depth)
    ensures var s' := Visit(q, s, edge, unseen);
            var d' := Deepen(d, s, s', OtherEnd(edge.Triple(), current), depth);
            && Listing(g, q, s') && Justified(g, q, s', d', depth)
            && Grows(s, d, s', d') && Covered(g, s', d', current, edge.Triple())
  {
    var k, v := edge.Triple(), OtherEnd(edge.Triple(), current);
    if |s.nodes| + |unseen| <= q.policy.maxNodes && (k in s.seenEdges || |s.edges| < q.policy.maxEdges) {
      AcceptedListing(g, q, s, current, edge, unseen);
      AcceptedJustified(g, q, s, d, depth, current, edge, unseen);
    } else {
      ReachExtends(g, q, current, k, depth);
      if v in g.nodes && v !in s.seenNodes { NodeRefusalHasCause(g, q, s, d, v, depth + 1); }
      if k !in s.seenEdges { EdgeRefusalHasCause(g, q, s, d, k, depth); }
      RefusedEdge(g, q, s, d, Visit(q, s, edge, unseen), depth, current, k);
    }
  }

  lemma GrowsIsTransitive(g: Graph, q: Query, depth: nat, s: State, d: map<CanonicalID, nat>,
                          s1: State, d1: map<CanonicalID, nat>, s2: State, d2: map<CanonicalID, nat>)
    requires Grows(s, d, s1, d1) && Grows(s1, d1, s2, d2) && Justified(g, q, s1, d1, depth) && Justified(g, q, s2, d2, depth)
    ensures Grows(s, d, s2, d2)
  {
    hide Sound, EndsSeen;
  }

  /** Nothing is left to do for `u`, unless a budget got in the way. */
  ghost predicate Handled(g: Graph, q: Query, s: State, d: map<CanonicalID, nat>, u: CanonicalID)
    requires u in d
  {
    Truncated(s) || Settled(g, q, d, s.seenEdges, u)
  }

  lemma HandledGrows(g: Graph, q: Query, s: State, d: map<CanonicalID, nat>, s': State, d': map<CanonicalID, nat>, u: CanonicalID)
    requires u in d && Handled(g, q, s, d, u) && Grows(s, d, s', d')
    ensures Handled(g, q, s', d', u)
  {
    hide Opens;
  }

  /** Every admitted one of the given edges at `u` has been dealt with. */
  ghost predicate AllCovered(g: Graph, q: Query, s: State, d: map<CanonicalID, nat>, u: CanonicalID, edges: seq<Edge>)
    requires u in d
  {
    forall e | e in edges && Opens(g, q, u, e.Triple(), d[u]) :: Covered(g, s, d, u, e.Triple())
  }

  lemma AllCoveredGrows(g: Graph, q: Query, s: State, d: map<CanonicalID, nat>, s': State, d': map<CanonicalID, nat>,
                        u: CanonicalID, edges: seq<Edge>, edge: Edge)
    requires u in d && AllCovered(g, q, s, d, u, edges) && Grows(s, d, s', d')
    requires Opens(g, q, u, edge.Triple(), d[u]) ==> Covered(g, s', d', u, edge.Triple())
    ensures AllCovered(g, q, s', d', u, edges + [edge])
  {
    hide Opens, KeyString;
    forall e | e in edges + [edge] && Opens(g, q, u, e.Triple(), d'[u])
      ensures Covered(g, s', d', u, e.Triple())
    {
      if e in edges {
        CoveredGrows(g, s, d, s', d', u, e.Triple());
      }
    }
  }

  lemma AllCoveredIsHandled(g: Graph, q: Query, s: State, d: map<CanonicalID, nat>, u: CanonicalID, edges: seq<Edge>)
    requires u in d && AllCovered(g, q, s, d, u, edges) && g.Valid()
    requires forall e :: e in edges <==> e.Triple() in g.edges && g.edges[e.Triple()] == e && e.Touches(u)
    ensures Handled(g, q, s, d, u)
  {
    forall k | Opens(g, q, u, k, d[u])
      ensures Covered(g, s, d, u, k)
    {
      assert g.edges[k] in edges;
    }
    hide Opens;
  }

  lemma TerminalIsHandled(g: Graph, q: Query, s: State, d: map<CanonicalID, nat>, u: CanonicalID)
    requires u in d && u in g.nodes && IsTerminal(g, q, g.nodes[u])
    ensures Handled(g, q, s, d, u)
  {
  }

  /** From (s, d) the expansion of `u` has got to (s', d'), having dealt with the given edges. */
  ghost predicate Expanding(g: Graph, q: Query, s: State, d: map<CanonicalID, nat>, s': State, d': map<CanonicalID, nat>,
                            u: CanonicalID, depth: nat, edges: seq<Edge>) {
    && Listing(g, q, s') && Justified(g, q, s', d', depth) && Grows(s, d, s', d')
    && u in d' && d'[u] == depth && u in s'.seenNodes && AllCovered(g, q, s', d', u, edges)
  }

  lemma ExpandingStarts(g: Graph, q: Query, s: State, d: map<CanonicalID, nat>, u: CanonicalID, depth: nat)
    requires Listing(g, q, s) && Justified(g, q, s, d, depth) && u in d && d[u] == depth
    ensures Expanding(g, q, s, d, s, d, u, depth, [])
  {
    hide Listing;
  }

  lemma ExpandingVisits(g: Graph, q: Query, s: State, d: map<CanonicalID, nat>, s1: State, d1: map<CanonicalID, nat>,
                        u: CanonicalID, depth: nat, edges: seq<Edge>, edge: Edge, unseen: seq<Node>)
    requires Expanding(g, q, s, d, s1, d1, u, depth, edges)
    requires IsUnseen(g, s1.seenNodes, u, edge, unseen) && Opens(g, q, u, edge.Triple(), depth)
    ensures var s' := Visit(q, s1, edge, unseen);
            var d' := Deepen(d1, s1, s', OtherEnd(edge.Triple(), u), depth);
            Expanding(g, q, s, d, s', d', u, depth, edges + [edge])
  {
    hide Listing, Justified, AllCovered, Covered, IsUnseen, Opens, Visit;
    var s' := Visit(q, s1, edge, unseen);
    var d' := Deepen(d1, s1, s', OtherEnd(edge.Triple(), u), depth);
    VisitIsRight(g, q, s1, d1, depth, u, edge, unseen);
    GrowsIsTransitive(g, q, depth, s, d, s1, d1, s', d');
    AllCoveredGrows(g, q, s1, d1, s', d', u, edges, edge);
  }

  lemma ExpandingSkips(g: Graph, q: Query, s: State, d: map<CanonicalID, nat>, s1: State, d1: map<CanonicalID, nat>,
                       u: CanonicalID, depth: nat, edges: seq<Edge>, edge: Edge)
    requires Expanding(g, q, s, d, s1, d1, u, depth, edges) && !Opens(g, q, u, edge.Triple(), depth)
    ensures Expanding(g, q, s, d, s1, d1, u, depth, edges + [edge])
  {
    hide Listing, Justified, Covered, Opens;
  }

  lemma ExpandingEnds(g: Graph, q: Query, s: State, d: map<CanonicalID, nat>, s': State, d': map<CanonicalID, nat>,
                      u: CanonicalID, depth: nat, edges: seq<Edge>)
    requires g.Valid() && Expanding(g, q, s, d, s', d', u, depth, edges)
    requires (u in g.nodes && IsTerminal(g, q, g.nodes[u]))
             || forall e :: e in edges <==> e.Triple() in g.edges && g.edges[e.Triple()] == e && e.Touches(u)
    ensures u in d' && Handled(g, q, s', d', u)
  {
    hide Listing, Justified, Covered, Opens;
    if u in g.nodes && IsTerminal(g, q, g.nodes[u]) {
      TerminalIsHandled(g, q, s', d', u);
    } else {
      AllCoveredIsHandled(g, q, s', d', u, edges);
    }
  }

  /** Expands one frontier node: every edge the kernel lists at it, in whatever order. */
  method ExpandNode(kernel: Kernel, q: Query, current: CanonicalID, s: State, ghost d: map<CanonicalID, nat>, depth: nat)
    returns (s': State, ghost d': map<CanonicalID, nat>)
    requires kernel.Valid()
    requires Listing(kernel.View(), q, s) && Justified(kernel.View(), q, s, d, depth) && current in d && d[current] == depth
    ensures Listing(kernel.View(), q, s') && Justified(kernel.View(), q, s', d', depth)
    ensures Grows(s, d, s', d') && current in d' && Handled(kernel.View(), q, s', d', current)
  {
    ghost var g := kernel.View();
    s', d' := s, d;
    var node, ok := kernel.GetNode(current);
    assert ok;
    ExpandingStarts(g, q, s, d, current, depth);
    hide Listing, Justified, Covered, Handled, AllCovered, Grows, Visit, Deepen, IsUnseen, IsTerminal, Admits, OtherEnd;
    var terminal := IsTerminalNode(kernel, q, node);
    if terminal {
      ExpandingEnds(g, q, s, d, s', d', current, depth, []);
      return;
    }
    var neighbors := kernel.Neighbors(current);
    for i := 0 to |neighbors|
      invariant Expanding(g, q, s, d, s', d', current, depth, neighbors[..i])
    {
      var edge := neighbors[i];
      var admitted := ShouldTraverseFrom(kernel, q, node, edge, depth);
      PrefixStep(neighbors, i);
      if admitted {
        var unseen := NewNodes(kernel, edge, s'.seenNodes, current);
        ExpandingVisits(g, q, s, d, s', d', current, depth, neighbors[..i], edge, unseen);
        ghost var s1 := s';
        s' := Visit(q, s', edge, unseen);
        d' := Deepen(d', s1, s', OtherEnd(edge.Triple(), current), depth);
      } else {
        ExpandingSkips(g, q, s, d, s', d', current, depth, neighbors[..i], edge);
      }
    }
    PrefixEnds(neighbors);
    ExpandingEnds(g, q, s, d, s', d', current, depth, neighbors);
  }

  /** While a level is being expanded: the first `done` of the frontier have been dealt with. */
  ghost predicate InLevel(g: Graph, q: Query, s: State, d: map<CanonicalID, nat>, depth: nat,
                          frontier: seq<CanonicalID>, done: nat) {
    && Listing(g, q, s) && Justified(g, q, s, d, depth)
    && (forall u :: u in frontier <==> u in d && d[u] == depth)
    && (forall u | u in d && d[u] < depth :: Handled(g, q, s, d, u))
    && (forall j | 0 <= j < done && j < |frontier| :: Handled(g, q, s, d, frontier[j]))
  }

  lemma FirstIsListed(g: Graph, q: Query)
    requires q.root.id in g.nodes && g.nodes[q.root.id] == q.root && q.policy.maxNodes >= 1 && q.policy.maxEdges >= 0
    ensures Listing(g, q, State([q.root], [], {q.root.id}, {}, false, false, []))
  {
    hide KeyString;
    assert IDsOf([q.root]) == {[q.root][0].id} && KeysOf([]) == {};
  }

  lemma FirstIsJustified(g: Graph, q: Query)
    requires g.Valid() && q.root.id in g.nodes && g.nodes[q.root.id] == q.root && ReachedAt(g, q, q.root.id, 0)
    ensures Justified(g, q, State([q.root], [], {q.root.id}, {}, false, false, []), map[q.root.id := 0], 0)
  {
    hide ReachedAt, Opens, Closure, ClosureEdges;
  }

  lemma FirstLevel(g: Graph, q: Query)
    requires g.Valid() && q.root.id in g.nodes && g.nodes[q.root.id] == q.root && q.policy.maxNodes >= 1 && q.policy.maxEdges >= 0
    ensures InLevel(g, q, State([q.root], [], {q.root.id}, {}, false, false, []), map[q.root.id := 0], 0, [q.root.id], 0)
  {
    RootIsReached(g, q);
    hide ReachedAt, Opens, ExposedAt, IsTerminal, Admits, KeyString, Closure, ClosureEdges, Handled, Listing, Justified;
    FirstIsListed(g, q);
    FirstIsJustified(g, q);
  }

  lemma LevelStep(g: Graph, q: Query, s: State, d: map<CanonicalID, nat>, s': State, d': map<CanonicalID, nat>,
                  depth: nat, frontier: seq<CanonicalID>, i: nat)
    requires InLevel(g, q, s, d, depth, frontier, i) && i < |frontier|
    requires Listing(g, q, s') && Justified(g, q, s', d', depth) && Grows(s, d, s', d')
    requires frontier[i] in d' && Handled(g, q, s', d', frontier[i])
    ensures InLevel(g, q, s', d', depth, frontier, i + 1)
  {
    hide Listing, Sound, EndsSeen, Handled;
    forall u | u in d && Handled(g, q, s, d, u)
      ensures Handled(g, q, s', d', u)
    {
      HandledGrows(g, q, s, d, s', d', u);
    }
    forall u | u in d' && d'[u] <= depth
      ensures u in d && d[u] == d'[u]
    {
      assert u in d || u in s'.next;
    }
    forall j | 0 <= j < i + 1 && j < |frontier|
      ensures Handled(g, q, s', d', frontier[j])
    {
      assert frontier[j] in frontier;
    }
  }

  /** The next frontier is exactly the next level. */
  lemma NextLevel(g: Graph, q: Query, s: State, d: map<CanonicalID, nat>, depth: nat, frontier: seq<CanonicalID>)
    requires InLevel(g, q, s, d, depth, frontier, |frontier|)
    ensures InLevel(g, q, s.(next := []), d, depth + 1, s.next, 0)
    ensures forall u | u in d :: d[u] <= depth + 1
  {
    hide Sound, ListsGraph, Connected, IDsOf, KeysOf, Opens;
    forall u | u in d && d[u] < depth + 1
      ensures Handled(g, q, s.(next := []), d, u)
    {
      if d[u] == depth {
        assert u in frontier;
        var j :| 0 <= j < |frontier| && frontier[j] == u;
      }
      assert Handled(g, q, s, d, u);
    }
  }

  lemma NothingOpensBeyond(g: Graph, q: Query, u: CanonicalID, k: EdgeKey, depth: int)
    requires depth >= MaxTraversalDepth(q.policy)
    ensures !Opens(g, q, u, k, depth)
  {
  }

  /** What a caller may rely on, whatever order the kernel enumerated edges in. */
  ghost predicate Answers(g: Graph, q: Query, r: Subgraph) {
    // Distinct nodes and edges of the graph, the root first, connected, within both caps.
    && ListsGraph(g, q, r.nodes, r.edges) && Connected(r.nodes, r.edges)
    && |r.nodes| <= q.policy.maxNodes && |r.edges| <= q.policy.maxEdges
    && (NoDanglingEdges(g) ==> forall e | e in r.edges :: e.from in IDsOf(r.nodes) && e.to in IDsOf(r.nodes))
    // Never more than the unbounded closure, and all of it unless marked partial.
    && IDsOf(r.nodes) <= Closure(g, q) && KeysOf(r.edges) <= ClosureEdges(g, q)
    && (!r.partial ==> IDsOf(r.nodes) == Closure(g, q) && KeysOf(r.edges) == ClosureEdges(g, q))
    // Marked partial exactly when the unbounded closure exceeds a budget.
    && (r.partial <==> OverBudget(g, q)) && (r.partial <==> r.truncationReasons != [])
    && ("maxNodes" in r.truncationReasons ==> |Closure(g, q)| > q.policy.maxNodes)
    && ("maxEdges" in r.truncationReasons ==> |ClosureEdges(g, q)| > q.policy.maxEdges)
  }

  /** Sorted, as the source reports them. */
  function SortedReasons(overNodes: bool, overEdges: bool): seq<string> {
    (if overEdges then ["maxEdges"] else []) + (if overNodes then ["maxNodes"] else [])
  }

  lemma ReasonsNameTheirFlags(overNodes: bool, overEdges: bool)
    ensures "maxNodes" in SortedReasons(overNodes, overEdges) <==> overNodes
    ensures "maxEdges" in SortedReasons(overNodes, overEdges) <==> overEdges
    ensures SortedReasons(overNodes, overEdges) != [] <==> overNodes || overEdges
  {
    assert "maxNodes"[3] != "maxEdges"[3];
  }

  /** At the end everything listed is handled: the deepest nodes open nothing. */
  lemma LastLevelIsHandled(g: Graph, q: Query, s: State, d: map<CanonicalID, nat>, depth: nat, frontier: seq<CanonicalID>)
    requires InLevel(g, q, s, d, depth, frontier, 0) && depth >= MaxTraversalDepth(q.policy)
    requires forall u | u in d :: d[u] <= depth
    ensures forall u | u in d :: Handled(g, q, s, d, u)
  {
    forall u | u in d
      ensures Handled(g, q, s, d, u)
    {
      if d[u] == depth {
        forall k { NothingOpensBeyond(g, q, u, k, depth); }
      }
    }
  }

  lemma HandledIsClosure(g: Graph, q: Query, s: State, d: map<CanonicalID, nat>, depth: nat)
    requires Listing(g, q, s) && Justified(g, q, s, d, depth) && forall u | u in d :: Handled(g, q, s, d, u)
    ensures s.seenNodes <= Closure(g, q) && s.seenEdges <= ClosureEdges(g, q)
    ensures !Truncated(s) ==> s.seenNodes == Closure(g, q) && s.seenEdges == ClosureEdges(g, q)
    ensures Truncated(s) <==> OverBudget(g, q)
  {
    SoundIsWithinClosure(g, q, d, s.seenEdges);
    hide ListsGraph, Connected, IDsOf, KeysOf, Sound, Settled;
    if !Truncated(s) {
      assert forall u | u in d :: Handled(g, q, s, d, u) ==> Settled(g, q, d, s.seenEdges, u);
      SettledIsClosure(g, q, d, s.seenEdges);
    }
  }

  lemma ListedEndsAreSeen(g: Graph, q: Query, s: State, d: map<CanonicalID, nat>, depth: nat)
    requires Listing(g, q, s) && Justified(g, q, s, d, depth) && NoDanglingEdges(g)
    ensures forall e | e in s.edges :: e.from in s.seenNodes && e.to in s.seenNodes
  {
    hide Connected, IDsOf, Sound;
    forall e | e in s.edges
      ensures e.from in s.seenNodes && e.to in s.seenNodes
    {
      assert e.Triple() in KeysOf(s.edges);
    }
  }

  lemma LastLevel(g: Graph, q: Query, s: State, d: map<CanonicalID, nat>, depth: nat)
    requires Listing(g, q, s) && Justified(g, q, s, d, depth) && forall u | u in d :: Handled(g, q, s, d, u)
    ensures Answers(g, q, Subgraph(s.nodes, s.edges, SortedReasons(s.overNodes, s.overEdges), Truncated(s)))
  {
    HandledIsClosure(g, q, s, d, depth);
    ReasonsNameTheirFlags(s.overNodes, s.overEdges);
    if NoDanglingEdges(g) {
      ListedEndsAreSeen(g, q, s, d, depth);
    }
    hide ListsGraph, Connected, Sound, SortedReasons, NoDanglingEdges, EndsSeen, IDsOf, KeysOf, Closure, ClosureEdges, Handled;
  }

  lemma AtFrontier(g: Graph, q: Query, s: State, d: map<CanonicalID, nat>, depth: nat, frontier: seq<CanonicalID>, i: nat)
    requires InLevel(g, q, s, d, depth, frontier, i)
    ensures Listing(g, q, s) && Justified(g, q, s, d, depth)
    ensures i < |frontier| ==> frontier[i] in d && d[frontier[i]] == depth
  {
    hide Listing, Justified, Handled;
    assert i < |frontier| ==> frontier[i] in frontier;
  }

  method GetDiagnosticSubgraph(kernel: Kernel, entryKind: string, entryID: CanonicalID, policy: Policy) returns (r: QueryResult)
    requires kernel.Valid()
    ensures r.Ok? <==> entryKind != "" && entryID != "" && entryID in kernel.View().nodes
    ensures entryKind == "" ==> r == Err(EntryKindRequired)
    ensures entryKind != "" && entryID == "" ==> r == Err(EntryIDRequired)
    ensures entryKind != "" && entryID != "" && entryID !in kernel.View().nodes ==> r == Err(EntryNotFound)
    ensures r.Ok? ==>
              Answers(kernel.View(), Query(kernel.View().nodes[entryID], Effective(policy)), r.subgraph)
  {
    if entryKind == "" {
      return Err(EntryKindRequired);
    }
    if entryID == "" {
      return Err(EntryIDRequired);
    }
    var root, ok := kernel.GetNode(entryID);
    if !ok {
      return Err(EntryNotFound);
    }
    var q := Query(root, Effective(policy));
    ghost var g := kernel.View();
    var s := State([root], [], {root.id}, {}, false, false, []);
    ghost var d: map<CanonicalID, nat> := map[root.id := 0];
    var frontier := [root.id];
    FirstLevel(g, q);
    hide Listing, Justified, Grows, Handled, Answers, SortedReasons, InLevel;
    for depth := 0 to MaxTraversalDepth(q.policy)
      invariant InLevel(g, q, s, d, depth, frontier, 0) && forall u | u in d :: d[u] <= depth
    {
      for i := 0 to |frontier|
        invariant InLevel(g, q, s, d, depth, frontier, i)
      {
        AtFrontier(g, q, s, d, depth, frontier, i);
        ghost var s0, d0 := s, d;
        s, d := ExpandNode(kernel, q, frontier[i], s, d, depth);
        LevelStep(g, q, s0, d0, s, d, depth, frontier, i);
      }
      NextLevel(g, q, s, d, depth, frontier);
      frontier, s := s.next, s.(next := []);
    }
    AtFrontier(g, q, s, d, MaxTraversalDepth(q.policy), frontier, 0);
    LastLevelIsHandled(g, q, s, d, MaxTraversalDepth(q.policy), frontier);
    LastLevel(g, q, s, d, MaxTraversalDepth(q.policy));
    r := Ok(Subgraph(s.nodes, s.edges, SortedReasons(s.overNodes, s.overEdges), Truncated(s)));
  }
}
