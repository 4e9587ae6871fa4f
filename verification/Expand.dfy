/** The ontology backend over the kernel, and bounded expansion around one entity. */
module Expand {
  import opened Identity
  import opened Strings
  import opened Sorting
  import opened GraphModel
  import opened Kernel

  const DEFAULT_DEPTH := 1
  const MAX_DEPTH := 4
  const DEFAULT_LIMIT := 200
  const MAX_LIMIT := 2000

  datatype ExpandOptions = ExpandOptions(entityID: CanonicalID, depth: int, direction: string, relationKind: string, limit: int)

  datatype ExpandResult =
    | Expanded(entry: Node, nodes: seq<Node>, edges: seq<Edge>)
    | InvalidQuery(reason: string)
    | EntryNotFound

  predicate IsDirection(direction: string) {
    direction in {"", "both", "out", "in"}
  }

  predicate IsValidQuery(o: ExpandOptions) {
    o.entityID != "" && 0 <= o.depth <= MAX_DEPTH && 0 <= o.limit <= MAX_LIMIT && IsDirection(o.direction)
  }

  method ValidateExpandOptions(o: ExpandOptions) returns (problem: string)
    ensures problem == "" <==> IsValidQuery(o)
  {
    if o.entityID == "" {
      return "entityGlobalId or id is required";
    }
    if o.depth < 0 {
      return "depth must be >= 0";
    }
    if o.depth > MAX_DEPTH {
      return "depth is above its maximum";
    }
    if o.limit < 0 {
      return "limit must be >= 0";
    }
    if o.limit > MAX_LIMIT {
      return "limit is above its maximum";
    }
    if o.direction != "" && o.direction != "both" && o.direction != "out" && o.direction != "in" {
      return "direction must be in, out, or both";
    }
    return "";
  }

  function WithDefaults(o: ExpandOptions): ExpandOptions {
    o.(depth := if o.depth == 0 then DEFAULT_DEPTH else o.depth, limit := if o.limit == 0 then DEFAULT_LIMIT else o.limit)
  }

  predicate MatchesKind(o: ExpandOptions, k: EdgeKey) {
    o.relationKind == "" || EqualFoldAscii(o.relationKind, EdgeKindName(k.kind))
  }

  /** relationTouches: any direction but "out" and "in" means both. */
  predicate TouchesToward(k: EdgeKey, id: CanonicalID, direction: string) {
    if direction == "out" then k.from == id
    else if direction == "in" then k.to == id
    else k.from == id || k.to == id
  }

  predicate Selects(o: ExpandOptions, k: EdgeKey, id: CanonicalID) {
    TouchesToward(k, id, o.direction) && MatchesKind(o, k)
  }

  // ---- What expansion is to find ----

  /** A relation that leads on from `u`: selected there, with both ends stored. */
  ghost predicate Hop(g: Graph, o: ExpandOptions, u: CanonicalID, k: EdgeKey) {
    k in g.edges && Selects(o, k, u) && k.from in g.nodes && k.to in g.nodes
  }

  function Far(k: EdgeKey, u: CanonicalID): CanonicalID {
    if k.from == u then k.to else k.from
  }

  /** The entities within `depth` hops of the root. */
  ghost function Ball(g: Graph, o: ExpandOptions, depth: nat): set<CanonicalID> {
    if depth == 0 then {o.entityID}
    else Ball(g, o, depth - 1) + set u, k | u in Ball(g, o, depth - 1) && k in g.edges && Hop(g, o, u, k) :: Far(k, u)
  }

  /** The relations crossed on the way. */
  ghost function BallEdges(g: Graph, o: ExpandOptions, depth: nat): set<EdgeKey> {
    if depth == 0 then {}
    else set k | k in g.edges && exists u | u in Ball(g, o, depth - 1) :: Hop(g, o, u, k)
  }

  lemma {:induction false} BallGrows(g: Graph, o: ExpandOptions, d: nat, e: nat)
    requires d <= e
    ensures Ball(g, o, d) <= Ball(g, o, e) && BallEdges(g, o, d) <= BallEdges(g, o, e)
    decreases e
  {
    hide Hop;
    if d < e {
      BallGrows(g, o, d, e - 1);
      assert Ball(g, o, e - 1) <= Ball(g, o, e);
      if d > 0 {
        BallGrows(g, o, d - 1, e - 1);
      }
    }
  }

  // ---- KernelBackend.Neighbors ----

  ghost predicate Matched(g: Graph, o: ExpandOptions, id: CanonicalID, e: Edge) {
    e.Triple() in g.edges && g.edges[e.Triple()] == e && Selects(o, e.Triple(), id)
  }

  lemma FewerThanAll(g: Graph, rels: seq<Edge>)
    requires forall i, j | 0 <= i < j < |rels| :: rels[i].Triple() != rels[j].Triple()
    requires forall e | e in rels :: e.Triple() in g.edges
    ensures |rels| <= |g.edges|
  {
    var keys := set e | e in rels :: e.Triple();
    DistinctImage(rels);
    SubsetSize(keys, g.edges.Keys);
    assert |g.edges.Keys| == |g.edges|;
  }

  lemma {:induction false} DistinctImage(rels: seq<Edge>)
    requires forall i, j | 0 <= i < j < |rels| :: rels[i].Triple() != rels[j].Triple()
    ensures |set e | e in rels :: e.Triple()| == |rels|
  {
    if rels != [] {
      var init, last := rels[..|rels| - 1], rels[|rels| - 1];
      DistinctImage(init);
      assert rels == init + [last];
      assert (set e | e in rels :: e.Triple()) == (set e | e in init :: e.Triple()) + {last.Triple()};
      assert last.Triple() !in set e | e in init :: e.Triple();
    }
  }

  /** At most `limit` selected relations at the entity, all of them when the limit leaves room for every stored relation. */
  method Neighbors(kernel: Kernel, id: CanonicalID, o: ExpandOptions, limit: nat) returns (out: seq<Edge>)
    requires kernel.Valid() && limit > 0
    ensures |out| <= limit
    ensures forall i, j | 0 <= i < j < |out| :: out[i].Triple() != out[j].Triple()
    ensures forall e | e in out :: Matched(kernel.View(), o, id, e)
    ensures |out| < limit || |kernel.View().edges| <= limit ==> forall e | Matched(kernel.View(), o, id, e) :: e in out
  {
    hide Kernel.Valid, Kernel.View, MatchesKind, Picked, Matched;
    ghost var g := kernel.View();
    var edges := kernel.Neighbors(id);
    out := [];
    PickNone(o, id, edges);
    for i := 0 to |edges|
      invariant |out| < limit && Picked(o, id, edges[..i], out)
    {
      var edge := edges[i];
      PrefixStep(edges, i);
      PickStep(o, id, edges, i, out);
      if !TouchesToward(edge.Triple(), id, o.direction) || !MatchesKind(o, edge.Triple()) {
        continue;
      }
      out := out + [edge];
      if |out| >= limit {
        PickedAreMatched(g, o, id, edges, edges[..i + 1], out);
        if |g.edges| <= limit {
          FillsUp(g, o, id, out);
        }
        return;
      }
    }
    PrefixEnds(edges);
    PickedAreMatched(g, o, id, edges, edges, out);
    PickedAreAll(g, o, id, edges, out);
  }

  /** The selected ones among the relations looked at, each once. */
  ghost predicate Picked(o: ExpandOptions, id: CanonicalID, seen: seq<Edge>, out: seq<Edge>) {
    && (forall e :: e in out <==> e in seen && Selects(o, e.Triple(), id))
    && forall a, b | 0 <= a < b < |out| :: out[a].Triple() != out[b].Triple()
  }

  lemma PickNone(o: ExpandOptions, id: CanonicalID, edges: seq<Edge>)
    ensures Picked(o, id, edges[..0], [])
  {
  }

  lemma PickStep(o: ExpandOptions, id: CanonicalID, edges: seq<Edge>, i: nat, out: seq<Edge>)
    requires i < |edges| && forall a, b | 0 <= a < b < |edges| :: edges[a].Triple() != edges[b].Triple()
    requires Picked(o, id, edges[..i], out)
    ensures Picked(o, id, edges[..i + 1], if Selects(o, edges[i].Triple(), id) then out + [edges[i]] else out)
  {
    hide Selects;
    DifferentTriples(edges, i);
    assert edges[..i + 1] == edges[..i] + [edges[i]];
  }

  lemma PickedAreMatched(g: Graph, o: ExpandOptions, id: CanonicalID, edges: seq<Edge>, seen: seq<Edge>, out: seq<Edge>)
    requires Picked(o, id, seen, out) && seen <= edges
    requires forall e | e in edges :: e.Triple() in g.edges && g.edges[e.Triple()] == e
    ensures forall e | e in out :: Matched(g, o, id, e)
    ensures forall i, j | 0 <= i < j < |out| :: out[i].Triple() != out[j].Triple()
  {
    hide Selects;
    assert forall e | e in seen :: e in edges;
  }

  lemma PickedAreAll(g: Graph, o: ExpandOptions, id: CanonicalID, edges: seq<Edge>, out: seq<Edge>)
    requires Picked(o, id, edges, out)
    requires forall e :: e in edges <==> e.Triple() in g.edges && g.edges[e.Triple()] == e && e.Touches(id)
    ensures forall e | Matched(g, o, id, e) :: e in out
  {
    hide MatchesKind;
  }

  lemma DifferentTriples(edges: seq<Edge>, i: nat)
    requires i < |edges| && forall a, b | 0 <= a < b < |edges| :: edges[a].Triple() != edges[b].Triple()
    ensures forall e | e in edges[..i] :: e.Triple() != edges[i].Triple()
  {
  }

  /** As many distinct relations as are stored are all of them. */
  lemma FillsUp(g: Graph, o: ExpandOptions, id: CanonicalID, out: seq<Edge>)
    requires forall i, j | 0 <= i < j < |out| :: out[i].Triple() != out[j].Triple()
    requires forall e | e in out :: Matched(g, o, id, e)
    requires |g.edges| <= |out|
    ensures forall e | Matched(g, o, id, e) :: e in out
  {
    forall e | Matched(g, o, id, e)
      ensures e in out
    {
      if e !in out {
        forall f | f in out
          ensures f.Triple() != e.Triple()
        {
        }
        var more := out + [e];
        FewerThanAll(g, more);
      }
    }
  }

  // ---- One relation ----

  datatype State = State(nodes: NodeMap, edges: EdgeMap, next: set<CanonicalID>)

  function WithEnd(all: NodeMap, nodes: NodeMap, id: CanonicalID): NodeMap {
    if id !in nodes && id in all then nodes[id := all[id]] else nodes
  }

  function Visit(all: NodeMap, expanded: set<CanonicalID>, current: CanonicalID, rel: Edge, s: State): State {
    var nodes := WithEnd(all, WithEnd(all, s.nodes, rel.from), rel.to);
    if rel.from in nodes && rel.to in nodes then
      State(nodes, s.edges[rel.Triple() := rel], s.next + ({Far(rel.Triple(), current)} - expanded))
    else State(nodes, s.edges, s.next)
  }

  /** Everything found is stored, and relations connect what is found. */
  ghost predicate Genuine(g: Graph, o: ExpandOptions, s: State) {
    && o.entityID in s.nodes
    && (forall id | id in s.nodes :: id in g.nodes && s.nodes[id] == g.nodes[id])
    && (forall k | k in s.edges :: k in g.edges && s.edges[k] == g.edges[k] && k.from in s.nodes && k.to in s.nodes)
  }

  /** Everything found is within reach, and what is due next is found. */
  ghost predicate Near(g: Graph, o: ExpandOptions, d: nat, s: State) {
    s.nodes.Keys <= Ball(g, o, d) && s.edges.Keys <= BallEdges(g, o, d) && s.next <= s.nodes.Keys
  }

  predicate Capped(o: ExpandOptions, s: State) {
    |s.nodes| <= |s.edges| + 1 && |s.edges| <= o.limit
  }

  /** What holds all along level `d`. */
  ghost predicate Sound(g: Graph, o: ExpandOptions, d: nat, s: State) {
    Genuine(g, o, s) && Near(g, o, d + 1, s) && Capped(o, s)
  }

  lemma EndsOf(g: Graph, o: ExpandOptions, current: CanonicalID, rel: Edge)
    requires Matched(g, o, current, rel)
    ensures current == rel.from || current == rel.to
    ensures Far(rel.Triple(), current) == (if rel.from == current then rel.to else rel.from)
  {
  }

  lemma VisitGrows(g: Graph, o: ExpandOptions, expanded: set<CanonicalID>, current: CanonicalID, rel: Edge, s: State)
    requires current in s.nodes && Matched(g, o, current, rel) && forall id | id in s.nodes :: id in g.nodes && s.nodes[id] == g.nodes[id]
    ensures var far, r := Far(rel.Triple(), current), Visit(g.nodes, expanded, current, rel, s);
            && (far in g.nodes ==> r == State(s.nodes[far := g.nodes[far]], s.edges[rel.Triple() := rel], s.next + ({far} - expanded)))
            && (far !in g.nodes ==> r == s)
  {
    hide MatchesKind;
    EndsOf(g, o, current, rel);
    var far := Far(rel.Triple(), current);
    if far in s.nodes {
      assert s.nodes[far := g.nodes[far]] == s.nodes;
    }
  }

  lemma WithinReach(g: Graph, o: ExpandOptions, d: nat, current: CanonicalID, rel: Edge)
    requires current in Ball(g, o, d) && current in g.nodes && Matched(g, o, current, rel) && Far(rel.Triple(), current) in g.nodes
    ensures Far(rel.Triple(), current) in Ball(g, o, d + 1) && rel.Triple() in BallEdges(g, o, d + 1)
  {
    hide MatchesKind;
    EndsOf(g, o, current, rel);
    assert Hop(g, o, current, rel.Triple());
  }

  lemma FoundIsGenuine(g: Graph, o: ExpandOptions, s: State, far: CanonicalID, k: EdgeKey, next: set<CanonicalID>)
    requires Genuine(g, o, s) && far in g.nodes && k in g.edges
    requires (k.from in s.nodes || k.from == far) && (k.to in s.nodes || k.to == far)
    ensures Genuine(g, o, State(s.nodes[far := g.nodes[far]], s.edges[k := g.edges[k]], next))
  {
  }

  lemma FoundIsCapped(g: Graph, o: ExpandOptions, s: State, far: CanonicalID, n: Node, k: EdgeKey, e: Edge, next: set<CanonicalID>)
    requires Genuine(g, o, s) && Capped(o, s) && |s.edges| < o.limit && (k.from == far || k.to == far)
    ensures Capped(o, State(s.nodes[far := n], s.edges[k := e], next))
  {
    SizesGrow(s.nodes, far, n);
    SizesGrow(s.edges, k, e);
    assert far !in s.nodes ==> k !in s.edges;
  }

  lemma VisitIsSound(g: Graph, o: ExpandOptions, d: nat, expanded: set<CanonicalID>, current: CanonicalID, rel: Edge, s: State)
    requires g.Valid() && Sound(g, o, d, s) && current in s.nodes && current in Ball(g, o, d)
    requires Matched(g, o, current, rel) && |s.edges| < o.limit
    ensures Sound(g, o, d, Visit(g.nodes, expanded, current, rel, s))
  {
    hide Visit, Matched, Ball, BallEdges, Capped, Near;
    var far, k := Far(rel.Triple(), current), rel.Triple();
    VisitGrows(g, o, expanded, current, rel, s);
    EndsOf(g, o, current, rel);
    IsStored(g, o, current, rel);
    if far in g.nodes {
      WithinReach(g, o, d, current, rel);
      var next := s.next + ({far} - expanded);
      FoundIsNear(g, o, d + 1, s, far, g.nodes[far], k, rel, expanded);
      FoundIsGenuine(g, o, s, far, k, next);
      FoundIsCapped(g, o, s, far, g.nodes[far], k, rel, next);
      hide Genuine;
    }
  }

  lemma FoundIsNear(g: Graph, o: ExpandOptions, d: nat, s: State, far: CanonicalID, n: Node, k: EdgeKey, e: Edge, expanded: set<CanonicalID>)
    requires Near(g, o, d, s) && far in Ball(g, o, d) && k in BallEdges(g, o, d)
    ensures Near(g, o, d, State(s.nodes[far := n], s.edges[k := e], s.next + ({far} - expanded)))
  {
    hide Ball, BallEdges;
  }

  lemma IsStored(g: Graph, o: ExpandOptions, id: CanonicalID, e: Edge)
    requires Matched(g, o, id, e)
    ensures e.Triple() in g.edges && g.edges[e.Triple()] == e
  {
  }

  lemma SizesGrow<K, V>(m: map<K, V>, k: K, v: V)
    ensures |m[k := v]| == |m| + if k in m then 0 else 1
  {
    assert m[k := v].Keys == m.Keys + {k};
    assert |m[k := v].Keys| == |m[k := v]| && |m.Keys| == |m|;
  }

  // ---- Completeness, when the limit never bites ----

  ghost predicate Roomy(g: Graph, o: ExpandOptions) {
    o.limit >= 2 * |g.edges|
  }

  /** Every relation leading on from `u` has been found. */
  ghost predicate Settled(g: Graph, o: ExpandOptions, u: CanonicalID, s: State) {
    forall k | k in g.edges && Hop(g, o, u, k) :: k in s.edges
  }

  /** Everything found was there at the start of the level, or is expanded, or is due next. */
  ghost predicate Tracked(start: set<CanonicalID>, expanded: set<CanonicalID>, s: State) {
    forall id | id in s.nodes :: id in start || id in expanded || id in s.next
  }

  ghost predicate Extends(s: State, t: State) {
    s.nodes.Keys <= t.nodes.Keys && s.edges.Keys <= t.edges.Keys
  }

  lemma VisitTracks(g: Graph, o: ExpandOptions, d: nat, start: set<CanonicalID>, expanded: set<CanonicalID>, current: CanonicalID, rel: Edge, s: State)
    requires Sound(g, o, d, s) && current in s.nodes && Matched(g, o, current, rel) && Tracked(start, expanded, s)
    ensures var r := Visit(g.nodes, expanded, current, rel, s);
            Tracked(start, expanded, r) && Extends(s, r) && (rel.from in g.nodes && rel.to in g.nodes ==> rel.Triple() in r.edges)
  {
    VisitGrows(g, o, expanded, current, rel, s);
    EndsOf(g, o, current, rel);
    hide Visit, Matched, Ball, BallEdges;
  }

  lemma AllVisitedIsSettled(g: Graph, o: ExpandOptions, u: CanonicalID, rels: seq<Edge>, s: State)
    requires g.Valid() && forall e | Matched(g, o, u, e) :: e in rels
    requires forall e | e in rels && e.from in g.nodes && e.to in g.nodes :: e.Triple() in s.edges
    ensures Settled(g, o, u, s)
  {
    hide Selects;
    forall k | k in g.edges && Hop(g, o, u, k)
      ensures k in s.edges
    {
      assert Matched(g, o, u, g.edges[k]);
    }
  }

  /** Where the expansion stands at the start of level `d`. */
  ghost predicate AtLevel(g: Graph, o: ExpandOptions, d: nat, s: State, expanded: set<CanonicalID>, frontier: seq<CanonicalID>) {
    && (forall id | id in frontier :: id in s.nodes && id in Ball(g, o, d))
    && s.nodes.Keys <= Ball(g, o, d) && s.edges.Keys <= BallEdges(g, o, d)
    && (Roomy(g, o) ==>
          && s.nodes.Keys == Ball(g, o, d) && s.edges.Keys == BallEdges(g, o, d)
          && (forall u | u in expanded :: Settled(g, o, u, s))
          && forall id | id in s.nodes :: id in expanded || id in frontier)
  }

  /** Where it stands inside level `d`, `done` of the frontier having been handled. */
  ghost predicate InLevel(g: Graph, o: ExpandOptions, start: set<CanonicalID>, s: State, expanded: set<CanonicalID>,
                          frontier: seq<CanonicalID>, done: nat)
    requires done <= |frontier|
  {
    Roomy(g, o) ==>
      && start <= s.nodes.Keys && Tracked(start, expanded, s)
      && (forall u | u in expanded :: Settled(g, o, u, s))
      && forall id | id in start :: id in expanded || id in frontier[done..]
  }

  lemma LevelSkips(g: Graph, o: ExpandOptions, start: set<CanonicalID>, s: State, expanded: set<CanonicalID>, frontier: seq<CanonicalID>, i: nat)
    requires i < |frontier| && InLevel(g, o, start, s, expanded, frontier, i) && frontier[i] in expanded
    ensures InLevel(g, o, start, s, expanded, frontier, i + 1)
  {
    hide Settled;
    assert frontier[i..] == [frontier[i]] + frontier[i + 1..];
  }

  lemma SettledStays(g: Graph, o: ExpandOptions, u: CanonicalID, s: State, t: State)
    requires Settled(g, o, u, s) && Extends(s, t)
    ensures Settled(g, o, u, t)
  {
  }

  lemma LevelAdvances(g: Graph, o: ExpandOptions, start: set<CanonicalID>, s: State, t: State, expanded: set<CanonicalID>,
                      frontier: seq<CanonicalID>, i: nat)
    requires i < |frontier| && InLevel(g, o, start, s, expanded, frontier, i) && Extends(s, t)
    requires Roomy(g, o) ==> Tracked(start, expanded + {frontier[i]}, t) && Settled(g, o, frontier[i], t)
    ensures InLevel(g, o, start, t, expanded + {frontier[i]}, frontier, i + 1)
  {
    hide Settled, Tracked;
    assert frontier[i..] == [frontier[i]] + frontier[i + 1..];
    if Roomy(g, o) {
      forall u | u in expanded { SettledStays(g, o, u, s, t); }
    }
  }

  lemma SettledEdges(g: Graph, o: ExpandOptions, d: nat, s: State)
    requires forall u | u in Ball(g, o, d) :: Settled(g, o, u, s)
    ensures BallEdges(g, o, d + 1) <= s.edges.Keys
  {
    hide Ball, Hop;
    forall k | k in BallEdges(g, o, d + 1)
      ensures k in s.edges
    {
      var u :| u in Ball(g, o, d) && Hop(g, o, u, k);
      assert Settled(g, o, u, s);
    }
  }

  lemma SettledNodes(g: Graph, o: ExpandOptions, d: nat, s: State)
    requires Genuine(g, o, s) && Ball(g, o, d) <= s.nodes.Keys && forall u | u in Ball(g, o, d) :: Settled(g, o, u, s)
    ensures Ball(g, o, d + 1) <= s.nodes.Keys
  {
    hide Hop;
    forall id | id in Ball(g, o, d + 1) && id !in Ball(g, o, d)
      ensures id in s.nodes
    {
      var u, k :| u in Ball(g, o, d) && k in g.edges && Hop(g, o, u, k) && Far(k, u) == id;
      assert Settled(g, o, u, s);
    }
  }

  /** At the end of a roomy level everything within one more hop has been found. */
  lemma LevelEnds(g: Graph, o: ExpandOptions, d: nat, start: set<CanonicalID>, s: State, expanded: set<CanonicalID>, frontier: seq<CanonicalID>)
    requires Sound(g, o, d, s) && InLevel(g, o, start, s, expanded, frontier, |frontier|)
    requires Roomy(g, o) ==> start == Ball(g, o, d)
    ensures Roomy(g, o) ==> s.nodes.Keys == Ball(g, o, d + 1) && s.edges.Keys == BallEdges(g, o, d + 1)
    ensures Roomy(g, o) ==> forall id | id in s.nodes :: id in expanded || id in s.next
    ensures Roomy(g, o) ==> forall u | u in expanded :: Settled(g, o, u, s)
  {
    hide Ball, BallEdges, Settled, Genuine, Capped, Tracked;
    if Roomy(g, o) {
      assert frontier[|frontier|..] == [];
      SettledEdges(g, o, d, s);
      SettledNodes(g, o, d, s);
      LevelIsTracked(start, expanded, s, frontier);
    }
  }

  lemma LevelIsTracked(start: set<CanonicalID>, expanded: set<CanonicalID>, s: State, frontier: seq<CanonicalID>)
    requires Tracked(start, expanded, s) && forall id | id in start :: id in expanded || id in frontier[|frontier|..]
    ensures forall id | id in s.nodes :: id in expanded || id in s.next
  {
  }

  lemma NextLevel(g: Graph, o: ExpandOptions, d: nat, start: set<CanonicalID>, s: State, expanded: set<CanonicalID>,
                  frontier: seq<CanonicalID>, next: seq<CanonicalID>)
    requires Sound(g, o, d, s) && InLevel(g, o, start, s, expanded, frontier, |frontier|)
    requires Roomy(g, o) ==> start == Ball(g, o, d)
    requires forall id :: id in next <==> id in s.next
    ensures AtLevel(g, o, d + 1, s, expanded, next)
  {
    LevelEnds(g, o, d, start, s, expanded, frontier);
    hide Ball, BallEdges, Settled, InLevel, Tracked, Genuine, Capped, Roomy;
  }

  // ---- The expansion as the source runs it ----

  method FetchEnd(kernel: Kernel, nodes: NodeMap, id: CanonicalID) returns (out: NodeMap)
    requires kernel.Valid()
    ensures out == WithEnd(kernel.View().nodes, nodes, id)
  {
    hide Kernel.Valid, Kernel.View;
    out := nodes;
    if id !in nodes {
      var node, found := kernel.GetNode(id);
      if found {
        out := nodes[id := node];
      }
    }
  }

  method VisitRelation(kernel: Kernel, expanded: set<CanonicalID>, current: CanonicalID, rel: Edge, s: State) returns (t: State)
    requires kernel.Valid()
    ensures t == Visit(kernel.View().nodes, expanded, current, rel, s)
  {
    hide Kernel.Valid, Kernel.View, WithEnd;
    var nodes := FetchEnd(kernel, s.nodes, rel.from);
    nodes := FetchEnd(kernel, nodes, rel.to);
    if rel.from !in nodes || rel.to !in nodes {
      return State(nodes, s.edges, s.next);
    }
    var next := Far(rel.Triple(), current);
    return State(nodes, s.edges[rel.Triple() := rel], if next !in expanded then s.next + {next} else s.next);
  }

  lemma RoomForAll(g: Graph, o: ExpandOptions, s: State)
    requires Genuine(g, o, s) && Roomy(g, o) && o.limit > 0
    ensures |g.edges| <= o.limit - |s.edges| && |s.edges| < o.limit
  {
    assert s.edges.Keys <= g.edges.Keys;
    SubsetSize(s.edges.Keys, g.edges.Keys);
    assert |s.edges.Keys| == |s.edges| && |g.edges.Keys| == |g.edges|;
  }

  ghost predicate Visited(g: Graph, rels: seq<Edge>, s: State) {
    forall e | e in rels && e.from in g.nodes && e.to in g.nodes :: e.Triple() in s.edges
  }

  lemma VisitedGrows(g: Graph, o: ExpandOptions, rels: seq<Edge>, i: nat, s: State, t: State)
    requires i < |rels| && Visited(g, rels[..i], s) && Extends(s, t)
    requires rels[i].from in g.nodes && rels[i].to in g.nodes ==> rels[i].Triple() in t.edges
    ensures Visited(g, rels[..i + 1], t)
  {
    PrefixStep(rels, i);
  }

  method ExpandEntity(kernel: Kernel, o: ExpandOptions, expanded: set<CanonicalID>, current: CanonicalID, s: State,
                      ghost d: nat, ghost start: set<CanonicalID>) returns (t: State)
    requires kernel.Valid() && Sound(kernel.View(), o, d, s) && current in s.nodes && current in Ball(kernel.View(), o, d)
    requires |s.edges| < o.limit && (Roomy(kernel.View(), o) ==> Tracked(start, expanded, s))
    ensures Sound(kernel.View(), o, d, t) && Extends(s, t)
    ensures Roomy(kernel.View(), o) ==> Tracked(start, expanded, t) && Settled(kernel.View(), o, current, t)
  {
    hide Kernel.Valid, Kernel.View, Matched, Near, Capped, Genuine, Ball, Visit, Settled, Tracked, Visited;
    ghost var g := kernel.View();
    var relations := Neighbors(kernel, current, o, o.limit - |s.edges|);
    if Roomy(g, o) {
      RoomForAll(g, o, s);
    }
    t := s;
    VisitedNone(g, s);
    for i := 0 to |relations|
      invariant Sound(g, o, d, t) && Extends(s, t)
      invariant Roomy(g, o) ==> Tracked(start, expanded, t) && Visited(g, relations[..i], t)
    {
      if |t.edges| >= o.limit {
        if Roomy(g, o) {
          RoomForAll(g, o, t);
        }
        break;
      }
      var rel := relations[i];
      assert rel in relations;
      ghost var before := t;
      t := VisitRelation(kernel, expanded, current, rel, t);
      VisitIsSound(g, o, d, expanded, current, rel, before);
      if Roomy(g, o) {
        VisitTracks(g, o, d, start, expanded, current, rel, before);
        VisitedGrows(g, o, relations, i, before, t);
      } else {
        VisitExtends(g, o, expanded, current, rel, before);
      }
    }
    if Roomy(g, o) {
      RoomForAll(g, o, t);
      PrefixEnds(relations);
      SettledByVisits(g, o, current, relations, t);
    }
  }

  lemma VisitedNone(g: Graph, s: State)
    ensures Visited(g, [], s)
  {
  }

  lemma VisitExtends(g: Graph, o: ExpandOptions, expanded: set<CanonicalID>, current: CanonicalID, rel: Edge, s: State)
    ensures Extends(s, Visit(g.nodes, expanded, current, rel, s))
  {
  }

  lemma SettledByVisits(g: Graph, o: ExpandOptions, u: CanonicalID, rels: seq<Edge>, s: State)
    requires g.Valid() && Visited(g, rels, s) && forall e | Matched(g, o, u, e) :: e in rels
    ensures Settled(g, o, u, s)
  {
    hide Matched, Settled;
    AllVisitedIsSettled(g, o, u, rels, s);
  }

  method SortedIDs(ids: set<CanonicalID>) returns (out: seq<CanonicalID>)
    ensures Ascending(out) && |out| == |ids| && forall id :: id in out <==> id in ids
  {
    var keys := SortedElements(ids);
    forall i | 0 <= i < |keys|
      ensures '|' !in keys[i]
    {
      assert keys[i] in keys;
      var id: CanonicalID :| id in ids && id == keys[i];
    }
    out := keys;
  }

  /** The nodes of the map, once each, in order of their identifiers. */
  ghost predicate ListsNodes(out: seq<Node>, m: NodeMap) {
    && |out| == |m| && (forall n :: n in out <==> n.id in m && m[n.id] == n)
    && forall i, j | 0 <= i < j < |out| :: Less(out[i].id, out[j].id)
  }

  ghost predicate ListsEdges(out: seq<Edge>, m: EdgeMap) {
    && |out| == |m| && (forall e :: e in out <==> e.Triple() in m && m[e.Triple()] == e)
    && forall i, j | 0 <= i < j < |out| :: Less(out[i].Key(), out[j].Key())
  }

  method SortedNodes(m: NodeMap) returns (out: seq<Node>)
    requires forall id | id in m :: m[id].id == id
    ensures ListsNodes(out, m)
  {
    hide Less;
    var ids := SortedIDs(m.Keys);
    assert forall j | 0 <= j < |ids| :: ids[j] in ids;
    out := [];
    for i := 0 to |ids|
      invariant |out| == i && forall j | 0 <= j < i :: out[j] == m[ids[j]]
    {
      out := out + [m[ids[i]]];
    }
    assert |m.Keys| == |m|;
    forall n
      ensures n in out <==> n.id in m && m[n.id] == n
    {
      if n.id in m && m[n.id] == n {
        assert n.id in ids;
        var j :| 0 <= j < |ids| && ids[j] == n.id;
        assert out[j] == n;
      }
    }
  }

  /** The source keeps relations under their key strings, which tell them apart. */
  method SortedEdges(m: EdgeMap) returns (out: seq<Edge>)
    requires forall k | k in m :: m[k].Triple() == k
    ensures ListsEdges(out, m)
  {
    hide Less, KeyString, Ascending, ByKey;
    KeysAreDistinct(m);
    ByKeyHolds(m);
    var byKey := ByKey(m);
    var keys := SortedElements(byKey.Keys);
    assert |byKey.Keys| == |byKey|;
    out := [];
    for i := 0 to |keys|
      invariant |out| == i && forall j | 0 <= j < i :: keys[j] in keys && out[j] == byKey[keys[j]]
    {
      assert keys[i] in keys;
      out := out + [byKey[keys[i]]];
    }
    LookedUpInOrder(m, byKey, keys, out);
  }

  lemma LookedUpInOrder(m: EdgeMap, byKey: map<string, Edge>, keys: seq<string>, out: seq<Edge>)
    requires |byKey| == |m| && |keys| == |byKey| && Ascending(keys) && forall k :: k in keys <==> k in byKey
    requires forall e: Edge :: e.Key() in byKey && byKey[e.Key()] == e <==> e.Triple() in m && m[e.Triple()] == e
    requires forall key | key in byKey :: byKey[key].Key() == key
    requires |out| == |keys| && forall j | 0 <= j < |keys| :: keys[j] in keys && out[j] == byKey[keys[j]]
    ensures ListsEdges(out, m)
  {
    hide Less, KeyString;
    assert forall j | 0 <= j < |out| :: out[j].Key() == keys[j];
    forall e
      ensures e in out <==> e.Triple() in m && m[e.Triple()] == e
    {
      if e.Triple() in m && m[e.Triple()] == e {
        assert e.Key() in keys;
        var j :| 0 <= j < |keys| && keys[j] == e.Key();
        assert out[j] == e;
      }
    }
  }

  /** No two keys of the map share a key string. */
  ghost predicate DistinctKeys(m: EdgeMap) {
    forall j, k | j in m && k in m && KeyString(j) == KeyString(k) :: j == k
  }

  function ByKey(m: EdgeMap): map<string, Edge>
    requires DistinctKeys(m)
  {
    map k | k in m :: KeyString(k) := m[k]
  }

  lemma ByKeyHolds(m: EdgeMap)
    requires forall k | k in m :: m[k].Triple() == k
    requires DistinctKeys(m)
    ensures var keyed := ByKey(m);
            && |keyed| == |m|
            && (forall e: Edge :: e.Key() in keyed && keyed[e.Key()] == e <==> e.Triple() in m && m[e.Triple()] == e)
            && forall key | key in keyed :: keyed[key].Key() == key
  {
    ByKeyEntries(m);
    hide KeyString, ByKey, DistinctKeys;
    var keyed := ByKey(m);
    KeyedSize(m, keyed);
    KeyedValues(m, keyed);
  }

  lemma ByKeyEntries(m: EdgeMap)
    requires DistinctKeys(m)
    ensures var keyed := ByKey(m);
            && keyed.Keys == (set k | k in m :: KeyString(k))
            && (forall key :: key in keyed <==> exists k | k in m :: KeyString(k) == key)
            && forall k | k in m :: keyed[KeyString(k)] == m[k]
  {
    hide KeyString;
  }

  lemma KeyedValues(m: EdgeMap, keyed: map<string, Edge>)
    requires forall k | k in m :: m[k].Triple() == k
    requires forall key :: key in keyed <==> exists k | k in m :: KeyString(k) == key
    requires forall k | k in m :: keyed[KeyString(k)] == m[k]
    ensures forall e: Edge :: e.Key() in keyed && keyed[e.Key()] == e <==> e.Triple() in m && m[e.Triple()] == e
    ensures forall key | key in keyed :: keyed[key].Key() == key
  {
    hide KeyString;
    forall e: Edge
      ensures e.Key() in keyed && keyed[e.Key()] == e <==> e.Triple() in m && m[e.Triple()] == e
    {
      if e.Key() in keyed {
        var k :| k in m && KeyString(k) == e.Key();
        KeyStringIsInjective(k, e.Triple());
      }
    }
  }

  lemma KeyedSize(m: EdgeMap, keyed: map<string, Edge>)
    requires DistinctKeys(m)
    requires keyed.Keys == set k | k in m :: KeyString(k)
    ensures |keyed| == |m|
  {
    hide KeyString;
    InjectiveImage(m.Keys);
    assert keyed.Keys == (set k | k in m.Keys :: KeyString(k));
    assert |keyed.Keys| == |keyed| && |m.Keys| == |m|;
  }

  lemma {:induction false} InjectiveImage(ks: set<EdgeKey>)
    requires forall j, k | j in ks && k in ks && KeyString(j) == KeyString(k) :: j == k
    ensures |set k | k in ks :: KeyString(k)| == |ks|
  {
    hide KeyString;
    if ks != {} {
      var k :| k in ks;
      InjectiveImage(ks - {k});
      assert (set j | j in ks :: KeyString(j)) == (set j | j in ks - {k} :: KeyString(j)) + {KeyString(k)};
      assert KeyString(k) !in set j | j in ks - {k} :: KeyString(j);
    }
  }

  lemma KeysAreDistinct(m: EdgeMap)
    requires forall k | k in m :: m[k].Triple() == k
    ensures DistinctKeys(m)
  {
    hide KeyString;
    forall j, k | j in m && k in m && KeyString(j) == KeyString(k)
      ensures j == k
    {
      KeyStringIsInjective(j, k);
    }
  }

  ghost function Found(nodes: seq<Node>): set<CanonicalID> {
    set n | n in nodes :: n.id
  }

  ghost function Crossed(edges: seq<Edge>): set<EdgeKey> {
    set e | e in edges :: e.Triple()
  }

  /** Stored nodes in order of their identifiers, and stored relations between them in order of their keys. */
  ghost predicate ListsSubgraph(g: Graph, nodes: seq<Node>, edges: seq<Edge>) {
    && (forall n | n in nodes :: n.id in g.nodes && g.nodes[n.id] == n)
    && (forall e | e in edges :: e.Triple() in g.edges && g.edges[e.Triple()] == e && e.from in Found(nodes) && e.to in Found(nodes))
    && (forall i, j | 0 <= i < j < |nodes| :: Less(nodes[i].id, nodes[j].id))
    && (forall i, j | 0 <= i < j < |edges| :: Less(edges[i].Key(), edges[j].Key()))
  }

  /** What an expansion returns: a subgraph around the root within both caps and within reach, and all of it given room. */
  ghost predicate IsExpansion(g: Graph, o: ExpandOptions, entry: Node, nodes: seq<Node>, edges: seq<Edge>) {
    && o.entityID in g.nodes && entry == g.nodes[o.entityID] && entry in nodes
    && ListsSubgraph(g, nodes, edges)
    && |edges| <= o.limit && |nodes| <= |edges| + 1
    && o.depth >= 0 && Found(nodes) <= Ball(g, o, o.depth) && Crossed(edges) <= BallEdges(g, o, o.depth)
    && (o.limit >= 2 * |g.edges| ==> Found(nodes) == Ball(g, o, o.depth) && Crossed(edges) == BallEdges(g, o, o.depth))
  }

  lemma ListedNodes(g: Graph, o: ExpandOptions, s: State, nodes: seq<Node>)
    requires g.Valid() && ListsNodes(nodes, s.nodes) && Genuine(g, o, s)
    ensures Found(nodes) == s.nodes.Keys && |nodes| == |s.nodes| && o.entityID in g.nodes && g.nodes[o.entityID] in nodes
    ensures forall n | n in nodes :: n.id in g.nodes && g.nodes[n.id] == n
    ensures forall i, j | 0 <= i < j < |nodes| :: Less(nodes[i].id, nodes[j].id)
  {
    hide Less;
    forall id | id in s.nodes
      ensures id in Found(nodes)
    {
      assert s.nodes[id] in nodes;
    }
    assert s.nodes[o.entityID] in nodes;
  }

  lemma ListedEdges(g: Graph, o: ExpandOptions, s: State, edges: seq<Edge>)
    requires g.Valid() && ListsEdges(edges, s.edges) && Genuine(g, o, s)
    ensures Crossed(edges) == s.edges.Keys && |edges| == |s.edges|
    ensures forall e | e in edges :: e.Triple() in g.edges && g.edges[e.Triple()] == e && e.from in s.nodes && e.to in s.nodes
    ensures forall i, j | 0 <= i < j < |edges| :: Less(edges[i].Key(), edges[j].Key())
  {
    hide Less, KeyString;
    forall k | k in s.edges
      ensures k in Crossed(edges)
    {
      assert s.edges[k] in edges;
    }
  }

  lemma ListedSubgraph(g: Graph, o: ExpandOptions, s: State, nodes: seq<Node>, edges: seq<Edge>)
    requires g.Valid() && ListsNodes(nodes, s.nodes) && ListsEdges(edges, s.edges) && Genuine(g, o, s)
    ensures ListsSubgraph(g, nodes, edges) && o.entityID in g.nodes && g.nodes[o.entityID] in nodes
    ensures Found(nodes) == s.nodes.Keys && |nodes| == |s.nodes| && Crossed(edges) == s.edges.Keys && |edges| == |s.edges|
  {
    ListedNodes(g, o, s, nodes);
    ListedEdges(g, o, s, edges);
    hide Genuine, ListsNodes, ListsEdges, Found, Crossed, Less, KeyString;
  }

  lemma ListedIsExpansion(g: Graph, o: ExpandOptions, s: State, nodes: seq<Node>, edges: seq<Edge>)
    requires g.Valid() && o.depth >= 0 && ListsNodes(nodes, s.nodes) && ListsEdges(edges, s.edges) && Genuine(g, o, s) && Capped(o, s)
    requires s.nodes.Keys <= Ball(g, o, o.depth) && s.edges.Keys <= BallEdges(g, o, o.depth)
    requires Roomy(g, o) ==> s.nodes.Keys == Ball(g, o, o.depth) && s.edges.Keys == BallEdges(g, o, o.depth)
    ensures IsExpansion(g, o, g.nodes[o.entityID], nodes, edges)
  {
    hide Genuine, Ball, BallEdges, ListsNodes, ListsEdges, ListsSubgraph, Found, Crossed;
    ListedSubgraph(g, o, s, nodes, edges);
  }

  lemma StartIsSound(g: Graph, o: ExpandOptions)
    requires g.Valid() && o.entityID in g.nodes && o.limit >= 0
    ensures var s := State(map[o.entityID := g.nodes[o.entityID]], map[], {});
            Genuine(g, o, s) && Capped(o, s) && AtLevel(g, o, 0, s, {}, [o.entityID])
  {
  }

  lemma SoundBegins(g: Graph, o: ExpandOptions, d: nat, s: State)
    requires Genuine(g, o, s) && Capped(o, s) && s.nodes.Keys <= Ball(g, o, d) && s.edges.Keys <= BallEdges(g, o, d)
    ensures Sound(g, o, d, s.(next := {}))
  {
    hide Ball, BallEdges;
    BallGrows(g, o, d, d + 1);
  }

  lemma LevelBegins(g: Graph, o: ExpandOptions, d: nat, s: State, expanded: set<CanonicalID>, frontier: seq<CanonicalID>)
    requires Genuine(g, o, s) && Capped(o, s) && AtLevel(g, o, d, s, expanded, frontier)
    ensures var t := s.(next := {}); Sound(g, o, d, t) && Extends(s, t) && InLevel(g, o, s.nodes.Keys, t, expanded, frontier, 0)
  {
    hide Ball, BallEdges, Settled, Genuine, Near;
    SoundBegins(g, o, d, s);
    if Roomy(g, o) {
      forall u | u in expanded { SettledStays(g, o, u, s, s.(next := {})); }
      assert frontier[0..] == frontier;
    }
  }

  /** With room for all, the limit is never reached. */
  lemma NoRoomLeft(g: Graph, o: ExpandOptions, t: State, start: set<CanonicalID>, expanded: set<CanonicalID>, frontier: seq<CanonicalID>)
    requires Genuine(g, o, t) && o.limit > 0 && o.limit - |t.edges| <= 0
    ensures InLevel(g, o, start, t, expanded, frontier, |frontier|)
  {
    if Roomy(g, o) { RoomForAll(g, o, t); }
  }

  lemma TrackedMore(g: Graph, o: ExpandOptions, start: set<CanonicalID>, t: State, expanded: set<CanonicalID>, frontier: seq<CanonicalID>,
                    i: nat, current: CanonicalID)
    requires i <= |frontier| && InLevel(g, o, start, t, expanded, frontier, i)
    ensures Roomy(g, o) ==> Tracked(start, expanded + {current}, t)
  {
    hide Settled;
  }

  lemma ExtendsOn(s: State, t: State, u: State)
    requires Extends(s, t) && Extends(t, u)
    ensures Extends(s, u)
  {
  }

  /** One level: expands the frontier until the limit is reached, and collects the next frontier. */
  method ExpandLevel(kernel: Kernel, o: ExpandOptions, s: State, expanded: set<CanonicalID>, frontier: seq<CanonicalID>, ghost d: nat)
    returns (t: State, expanded': set<CanonicalID>, frontier': seq<CanonicalID>)
    requires kernel.Valid() && Genuine(kernel.View(), o, s) && Capped(o, s) && o.limit > 0
    requires AtLevel(kernel.View(), o, d, s, expanded, frontier)
    ensures Genuine(kernel.View(), o, t) && Capped(o, t) && AtLevel(kernel.View(), o, d + 1, t, expanded', frontier')
  {
    hide Kernel.Valid, Kernel.View, Near, Genuine, Ball, BallEdges, Settled, Tracked, InLevel, Roomy, Extends, AtLevel, Ascending;
    ghost var g := kernel.View();
    ghost var start := s.nodes.Keys;
    t, expanded' := s.(next := {}), expanded;
    LevelBegins(g, o, d, s, expanded, frontier);
    for i := 0 to |frontier|
      invariant Sound(g, o, d, t) && Extends(s, t) && InLevel(g, o, start, t, expanded', frontier, i)
    {
      var current := frontier[i];
      if current in expanded' {
        LevelSkips(g, o, start, t, expanded', frontier, i);
        continue;
      }
      ghost var before, earlier := t, expanded';
      expanded' := expanded' + {current};
      if o.limit - |t.edges| <= 0 {
        NoRoomLeft(g, o, t, start, expanded', frontier);
        break;
      }
      TrackedMore(g, o, start, before, earlier, frontier, i, current);
      FrontierIsFound(g, o, d, s, before, expanded, frontier, i);
      t := ExpandEntity(kernel, o, expanded', current, t, d, start);
      LevelAdvances(g, o, start, before, t, earlier, frontier, i);
      ExtendsOn(s, before, t);
    }
    frontier' := SortedIDs(t.next);
    LevelStartIsBall(g, o, d, s, expanded, frontier);
    NextLevel(g, o, d, start, t, expanded', frontier, frontier');
  }

  lemma FrontierIsFound(g: Graph, o: ExpandOptions, d: nat, s: State, t: State, expanded: set<CanonicalID>, frontier: seq<CanonicalID>, i: nat)
    requires i < |frontier| && AtLevel(g, o, d, s, expanded, frontier) && Extends(s, t)
    ensures frontier[i] in t.nodes && frontier[i] in Ball(g, o, d)
  {
    hide Ball, BallEdges, Settled;
    assert frontier[i] in frontier;
  }

  lemma LevelStartIsBall(g: Graph, o: ExpandOptions, d: nat, s: State, expanded: set<CanonicalID>, frontier: seq<CanonicalID>)
    requires AtLevel(g, o, d, s, expanded, frontier)
    ensures Roomy(g, o) ==> s.nodes.Keys == Ball(g, o, d)
  {
    hide Ball, BallEdges, Settled;
  }

  /** The answer to an expansion query: at most `limit` relations and one more entity than relations, all stored, connected and within
      `depth` hops; all of those when the limit is twice the number of stored relations. */
  method ExpandSubgraph(kernel: Kernel, options: ExpandOptions) returns (r: ExpandResult)
    requires kernel.Valid()
    ensures r.InvalidQuery? <==> !IsValidQuery(options)
    ensures r.EntryNotFound? <==> IsValidQuery(options) && options.entityID !in kernel.View().nodes
    ensures r.Expanded? ==> IsExpansion(kernel.View(), WithDefaults(options), r.entry, r.nodes, r.edges)
  {
    hide Kernel.Valid, Kernel.View, Genuine, Capped, Ball, BallEdges, AtLevel, IsExpansion, ListsNodes, ListsEdges, Roomy;
    var problem := ValidateExpandOptions(options);
    if problem != "" {
      return InvalidQuery(problem);
    }
    var o := WithDefaults(options);
    var root, found := kernel.GetNode(o.entityID);
    if !found {
      return EntryNotFound;
    }
    ghost var g := kernel.View();
    var s := State(map[o.entityID := root], map[], {});
    var expanded: set<CanonicalID>, frontier := {}, [o.entityID];
    StartIsSound(g, o);
    var depth := 0;
    while depth < o.depth && |s.edges| < o.limit
      invariant 0 <= depth <= o.depth && Genuine(g, o, s) && Capped(o, s) && AtLevel(g, o, depth, s, expanded, frontier)
    {
      s, expanded, frontier := ExpandLevel(kernel, o, s, expanded, frontier, depth);
      depth := depth + 1;
    }
    StopsWithAll(g, o, depth, s, expanded, frontier);
    var nodes, edges := ListFound(s, o, g);
    return Expanded(root, nodes, edges);
  }

  /** The entities and relations found, each in order. */
  method ListFound(s: State, o: ExpandOptions, ghost g: Graph) returns (nodes: seq<Node>, edges: seq<Edge>)
    requires g.Valid() && o.depth >= 0 && Genuine(g, o, s) && Capped(o, s)
    requires s.nodes.Keys <= Ball(g, o, o.depth) && s.edges.Keys <= BallEdges(g, o, o.depth)
    requires Roomy(g, o) ==> s.nodes.Keys == Ball(g, o, o.depth) && s.edges.Keys == BallEdges(g, o, o.depth)
    requires (forall id | id in s.nodes :: s.nodes[id].id == id) && forall k | k in s.edges :: s.edges[k].Triple() == k
    ensures IsExpansion(g, o, g.nodes[o.entityID], nodes, edges)
  {
    hide Ball, BallEdges, IsExpansion, ListsNodes, ListsEdges, Genuine, Roomy;
    nodes := SortedNodes(s.nodes);
    edges := SortedEdges(s.edges);
    ListedIsExpansion(g, o, s, nodes, edges);
  }

  lemma StopsWithAll(g: Graph, o: ExpandOptions, depth: nat, s: State, expanded: set<CanonicalID>, frontier: seq<CanonicalID>)
    requires depth <= o.depth && o.limit > 0 && Genuine(g, o, s) && AtLevel(g, o, depth, s, expanded, frontier)
    requires depth == o.depth || |s.edges| >= o.limit
    ensures s.nodes.Keys <= Ball(g, o, o.depth) && s.edges.Keys <= BallEdges(g, o, o.depth)
    ensures Roomy(g, o) ==> s.nodes.Keys == Ball(g, o, o.depth) && s.edges.Keys == BallEdges(g, o, o.depth)
    ensures g.Valid() ==> (forall id | id in s.nodes :: s.nodes[id].id == id) && forall k | k in s.edges :: s.edges[k].Triple() == k
  {
    BallGrows(g, o, depth, o.depth);
    if Roomy(g, o) { RoomForAll(g, o, s); }
    hide Ball, BallEdges, Settled;
  }
}
