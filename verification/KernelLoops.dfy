/** The loops every reconciler runs over the kernel: delete what matches, upsert what a list contributes. */
module KernelLoops {
  import opened Identity
  import opened GraphModel
  import opened Kernel

  ghost function Doomed(g: Graph, doomed: Node -> bool): set<CanonicalID> {
    set id | id in g.nodes && doomed(g.nodes[id])
  }

  lemma EmptyFlat<A, B>(xs: seq<A>, f: A -> seq<B>)
    ensures Flat(xs[..0], f) == [] && ToNodes([]) == map[] && ToEdges([]) == map[]
    ensures forall g: Graph :: g.(nodes := g.nodes + map[]) == g && g.(edges := g.edges + map[]) == g
  {
    assert forall g: Graph :: g.nodes + map[] == g.nodes && g.edges + map[] == g.edges;
  }

  /** Two upsert loops in a row are one over both lists. */
  lemma AccumulateEdges(m: EdgeMap, es: seq<Edge>, more: seq<Edge>)
    ensures (m + ToEdges(es)) + ToEdges(more) == m + ToEdges(es + more)
  {
    ToEdgesAppend(es, more);
    MapPlusIsAssociative(m, ToEdges(es), ToEdges(more));
  }

  lemma AccumulateNodes(m: NodeMap, ns: seq<Node>, more: seq<Node>)
    ensures (m + ToNodes(ns)) + ToNodes(more) == m + ToNodes(ns + more)
  {
    ToNodesAppend(ns, more);
    MapPlusIsAssociative(m, ToNodes(ns), ToNodes(more));
  }

  /** What is left of `g` once the doomed ones among the edges seen so far are gone. */
  ghost predicate EdgesLeft(g: Graph, now: Graph, seen: seq<Edge>, doomed: EdgeKey -> bool) {
    && now.nodes == g.nodes
    && (forall k :: k in now.edges <==> k in g.edges && !(g.edges[k] in seen && doomed(k)))
    && (forall k | k in now.edges :: now.edges[k] == g.edges[k])
  }

  lemma EdgesLeftStep(g: Graph, now: Graph, seen: seq<Edge>, edge: Edge, doomed: EdgeKey -> bool, now': Graph)
    requires g.Valid() && EdgesLeft(g, now, seen, doomed) && edge.Triple() in g.edges && g.edges[edge.Triple()] == edge
    requires edge !in seen && now'.nodes == now.nodes
    requires now'.edges == if doomed(edge.Triple()) then now.edges - {edge.Triple()} else now.edges
    ensures EdgesLeft(g, now', seen + [edge], doomed)
    ensures |now'.edges| == |now.edges| - if doomed(edge.Triple()) then 1 else 0
  {
    if doomed(edge.Triple()) {
      assert now'.edges.Keys == now.edges.Keys - {edge.Triple()};
    }
  }

  lemma EdgesLeftEnds(g: Graph, now: Graph, seen: seq<Edge>, doomed: EdgeKey -> bool)
    requires g.Valid() && EdgesLeft(g, now, seen, doomed)
    requires forall e :: e in seen <==> e.Triple() in g.edges && g.edges[e.Triple()] == e
    ensures now == g.WithoutEdges(doomed)
  {
    assert now.edges == g.WithoutEdges(doomed).edges;
  }

  /** What is left, with the number of edges that are gone. */
  ghost predicate EdgesCleared(g: Graph, now: Graph, seen: seq<Edge>, doomed: EdgeKey -> bool, deleted: int) {
    EdgesLeft(g, now, seen, doomed) && deleted == |g.edges| - |now.edges|
  }

  lemma NothingCleared(g: Graph, doomed: EdgeKey -> bool)
    ensures EdgesCleared(g, g, [], doomed, 0)
  {
  }

  lemma EdgesClearedStep(g: Graph, now: Graph, seen: seq<Edge>, edge: Edge, doomed: EdgeKey -> bool, deleted: int, now': Graph)
    requires g.Valid() && EdgesCleared(g, now, seen, doomed, deleted) && edge.Triple() in g.edges && g.edges[edge.Triple()] == edge
    requires edge !in seen && now'.nodes == now.nodes
    requires now'.edges == if doomed(edge.Triple()) then now.edges - {edge.Triple()} else now.edges
    ensures EdgesCleared(g, now', seen + [edge], doomed, deleted + if doomed(edge.Triple()) then 1 else 0)
  {
    EdgesLeftStep(g, now, seen, edge, doomed, now');
    hide EdgesLeft;
  }

  lemma EdgesClearedEnds(g: Graph, now: Graph, seen: seq<Edge>, doomed: EdgeKey -> bool, deleted: int)
    requires g.Valid() && EdgesCleared(g, now, seen, doomed, deleted)
    requires forall e :: e in seen <==> e.Triple() in g.edges && g.edges[e.Triple()] == e
    ensures now == g.WithoutEdges(doomed) && deleted == |g.edges| - |now.edges|
  {
    EdgesLeftEnds(g, now, seen, doomed);
  }

  lemma DeletedKey(before: Graph, after: Graph, edge: Edge)
    requires forall k :: k in after.edges <==> k in before.edges && KeyString(k) != edge.Key()
    requires forall k | k in after.edges :: after.edges[k] == before.edges[k]
    ensures after.edges == before.edges - {edge.Triple()}
  {
    hide KeyString;
    KeyStringNames(edge.Triple());
  }

  /** `for _, edge := range kernel.ListEdges() { if doomed { kernel.DeleteEdge } }`, counting. */
  method DeleteEdgesWhere(kernel: Kernel, doomed: EdgeKey -> bool) returns (deleted: nat)
    requires kernel.Valid()
    modifies kernel.store
    ensures kernel.Valid() && kernel.View() == old(kernel.View()).WithoutEdges(doomed)
    ensures deleted == |old(kernel.View()).edges| - |kernel.View().edges|
  {
    hide KeyString, Kernel.Valid, Kernel.View, EdgesCleared, Graph.WithoutEdges;
    var listed := kernel.ListEdges();
    ghost var g := kernel.View();
    NothingCleared(g, doomed);
    deleted := 0;
    for i := 0 to |listed|
      invariant kernel.Valid() && EdgesCleared(g, kernel.View(), listed[..i], doomed, deleted)
    {
      var edge := listed[i];
      PrefixStep(listed, i);
      ghost var now := kernel.View();
      if doomed(edge.Triple()) {
        kernel.DeleteEdge(edge.Key());
        DeletedKey(now, kernel.View(), edge);
        deleted := deleted + 1;
        EdgesClearedStep(g, now, listed[..i], edge, doomed, deleted - 1, kernel.View());
      } else {
        EdgesClearedStep(g, now, listed[..i], edge, doomed, deleted, now);
      }
    }
    PrefixEnds(listed);
    EdgesClearedEnds(g, kernel.View(), listed, doomed, deleted);
  }

  lemma NodesLeftStep(g: Graph, now: Graph, gone: set<CanonicalID>, id: CanonicalID)
    requires now == g.WithoutNodes(gone) && id in g.nodes && id !in gone
    ensures now.WithoutNodes({id}) == g.WithoutNodes(gone + {id})
    ensures |now.WithoutNodes({id}).nodes| == |now.nodes| - 1
  {
    assert now.nodes - {id} == g.nodes - (gone + {id});
    assert (now.nodes - {id}).Keys == now.nodes.Keys - {id};
  }

  lemma NothingDropped(g: Graph)
    ensures g.WithoutNodes({}) == g
  {
  }

  lemma StillThere(g: Graph, gone: set<CanonicalID>, id: CanonicalID)
    requires id in g.nodes && id !in gone
    ensures id in g.WithoutNodes(gone).nodes
  {
  }

  /** The doomed ones among the nodes seen so far. */
  ghost predicate Swept(g: Graph, seen: seq<Node>, doomed: Node -> bool, gone: set<CanonicalID>) {
    forall id :: id in gone <==> id in g.nodes && g.nodes[id] in seen && doomed(g.nodes[id])
  }

  lemma SweptStep(g: Graph, seen: seq<Node>, node: Node, doomed: Node -> bool, gone: set<CanonicalID>)
    requires g.Valid() && Swept(g, seen, doomed, gone) && node.id in g.nodes && g.nodes[node.id] == node && node !in seen
    ensures node.id !in gone && Swept(g, seen + [node], doomed, if doomed(node) then gone + {node.id} else gone)
  {
  }

  lemma SweptAll(g: Graph, seen: seq<Node>, doomed: Node -> bool, gone: set<CanonicalID>)
    requires Swept(g, seen, doomed, gone) && forall id | id in g.nodes :: g.nodes[id] in seen
    ensures gone == Doomed(g, doomed)
  {
  }

  lemma NothingSwept(g: Graph, doomed: Node -> bool)
    ensures Swept(g, [], doomed, {}) && g.WithoutNodes({}) == g
  {
    NothingDropped(g);
  }

  /** The same over nodes; deleting a node takes its edges along. */
  method DeleteNodesWhere(kernel: Kernel, doomed: Node -> bool) returns (deleted: nat)
    requires kernel.Valid()
    modifies kernel.store
    ensures kernel.Valid() && kernel.View() == old(kernel.View()).WithoutNodes(Doomed(old(kernel.View()), doomed))
    ensures deleted == |old(kernel.View()).nodes| - |kernel.View().nodes|
  {
    hide Kernel.Valid, Kernel.View, Graph.WithoutNodes;
    var listed := kernel.ListNodes();
    ghost var g := kernel.View();
    ghost var gone: set<CanonicalID> := {};
    NothingDropped(g);
    deleted := 0;
    for i := 0 to |listed|
      invariant kernel.Valid() && kernel.View() == g.WithoutNodes(gone)
      invariant forall id :: id in gone <==> id in g.nodes && g.nodes[id] in listed[..i] && doomed(g.nodes[id])
      invariant deleted == |g.nodes| - |kernel.View().nodes|
    {
      var node := listed[i];
      PrefixStep(listed, i);
      if doomed(node) {
        StillThere(g, gone, node.id);
        NodesLeftStep(g, kernel.View(), gone, node.id);
        kernel.DeleteNode(node.id);
        gone := gone + {node.id};
        deleted := deleted + 1;
      }
    }
    PrefixEnds(listed);
    assert gone == Doomed(g, doomed);
  }

  /** Upserts the nodes every list element contributes, in order. */
  method UpsertNodes<A>(kernel: Kernel, xs: seq<A>, f: A -> seq<Node>) returns (upserted: nat)
    requires kernel.Valid()
    modifies kernel.store
    ensures kernel.Valid() && upserted == |Flat(xs, f)|
    ensures kernel.View() == old(kernel.View()).(nodes := old(kernel.View()).nodes + ToNodes(Flat(xs, f)))
  {
    hide Kernel.Valid, Kernel.View, Flat, ToNodes, ToEdges;
    ghost var g := kernel.View();
    EmptyFlat(xs, f);
    upserted := 0;
    for i := 0 to |xs|
      invariant kernel.Valid() && upserted == |Flat(xs[..i], f)|
      invariant kernel.View() == g.(nodes := g.nodes + ToNodes(Flat(xs[..i], f)))
    {
      FlatStep(xs, i, f);
      UpsertNodeList(kernel, f(xs[i]));
      ToNodesAppend(Flat(xs[..i], f), f(xs[i]));
      MapPlusIsAssociative(g.nodes, ToNodes(Flat(xs[..i], f)), ToNodes(f(xs[i])));
      upserted := upserted + |f(xs[i])|;
    }
    PrefixEnds(xs);
  }

  method UpsertNodeList(kernel: Kernel, ns: seq<Node>)
    requires kernel.Valid()
    modifies kernel.store
    ensures kernel.Valid()
    ensures kernel.View() == old(kernel.View()).(nodes := old(kernel.View()).nodes + ToNodes(ns))
  {
    hide Kernel.Valid, Kernel.View, ToNodes, Graph.WithNode;
    ghost var g := kernel.View();
    NothingUpserted(g);
    for i := 0 to |ns|
      invariant kernel.Valid() && kernel.View() == g.(nodes := g.nodes + ToNodes(ns[..i]))
    {
      NodeUpserted(g, ns, i);
      kernel.UpsertNode(ns[i]);
    }
    PrefixEnds(ns);
  }

  lemma NoMoreNodes(g: Graph, es: seq<Edge>)
    ensures g.WithAll([], es) == g.(edges := g.edges + ToEdges(es))
  {
    assert g.nodes + map[] == g.nodes;
  }

  lemma NothingUpserted(g: Graph)
    ensures g.(nodes := g.nodes + ToNodes([])) == g && g.(edges := g.edges + ToEdges([])) == g
  {
    assert g.nodes + map[] == g.nodes && g.edges + map[] == g.edges;
  }

  lemma NodeUpserted(g: Graph, ns: seq<Node>, i: nat)
    requires i < |ns|
    ensures g.(nodes := g.nodes + ToNodes(ns[..i])).WithNode(ns[i]) == g.(nodes := g.nodes + ToNodes(ns[..i + 1]))
  {
    assert ns[..i + 1][..i] == ns[..i];
  }

  lemma EdgeUpserted(g: Graph, es: seq<Edge>, i: nat)
    requires i < |es|
    ensures g.(edges := g.edges + ToEdges(es[..i])).WithEdge(es[i]) == g.(edges := g.edges + ToEdges(es[..i + 1]))
  {
    assert es[..i + 1][..i] == es[..i];
  }

  /** Upserts the edges every list element contributes, in order. */
  method UpsertEdges<A>(kernel: Kernel, xs: seq<A>, f: A -> seq<Edge>) returns (upserted: nat)
    requires kernel.Valid()
    modifies kernel.store
    ensures kernel.Valid() && upserted == |Flat(xs, f)|
    ensures kernel.View() == old(kernel.View()).(edges := old(kernel.View()).edges + ToEdges(Flat(xs, f)))
  {
    hide Kernel.Valid, Kernel.View, Flat, ToNodes, ToEdges;
    ghost var g := kernel.View();
    EmptyFlat(xs, f);
    upserted := 0;
    for i := 0 to |xs|
      invariant kernel.Valid() && upserted == |Flat(xs[..i], f)|
      invariant kernel.View() == g.(edges := g.edges + ToEdges(Flat(xs[..i], f)))
    {
      FlatStep(xs, i, f);
      UpsertEdgeList(kernel, f(xs[i]));
      ToEdgesAppend(Flat(xs[..i], f), f(xs[i]));
      MapPlusIsAssociative(g.edges, ToEdges(Flat(xs[..i], f)), ToEdges(f(xs[i])));
      upserted := upserted + |f(xs[i])|;
    }
    PrefixEnds(xs);
  }

  method UpsertEdgeList(kernel: Kernel, es: seq<Edge>)
    requires kernel.Valid()
    modifies kernel.store
    ensures kernel.Valid()
    ensures kernel.View() == old(kernel.View()).(edges := old(kernel.View()).edges + ToEdges(es))
  {
    hide Kernel.Valid, Kernel.View, ToEdges, Graph.WithEdge;
    ghost var g := kernel.View();
    NothingUpserted(g);
    for i := 0 to |es|
      invariant kernel.Valid() && kernel.View() == g.(edges := g.edges + ToEdges(es[..i]))
    {
      EdgeUpserted(g, es, i);
      kernel.UpsertEdge(es[i]);
    }
    PrefixEnds(es);
  }
}
