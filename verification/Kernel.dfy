/** The in-memory store with its adjacency index, and the kernel over both. */
module Kernel {
  import opened Identity
  import opened GraphModel

  type Adjacency = map<CanonicalID, set<string>>

  function Add(index: Adjacency, id: CanonicalID, key: string): Adjacency {
    index[id := (if id in index then index[id] else {}) + {key}]
  }

  function Remove(index: Adjacency, id: CanonicalID, key: string): Adjacency {
    if id !in index then index
    else if index[id] - {key} == {} then index - {id}
    else index[id := index[id] - {key}]
  }

  predicate Has(index: Adjacency, id: CanonicalID, key: string) {
    id in index && key in index[id]
  }

  /** The index holds a key at an identifier exactly when that edge is stored and touches it. */
  ghost predicate Indexed(edges: map<string, Edge>, index: Adjacency) {
    && (forall id | id in index :: index[id] != {})
    && (forall id, key :: Has(index, id, key) <==> key in edges && edges[key].Touches(id))
  }

  lemma AddAddsOne(index: Adjacency, id: CanonicalID, key: string)
    ensures forall i, k :: Has(Add(index, id, key), i, k) <==> Has(index, i, k) || (i == id && k == key)
  {
  }

  lemma RemoveRemovesOne(index: Adjacency, id: CanonicalID, key: string)
    ensures forall i, k :: Has(Remove(index, id, key), i, k) <==> Has(index, i, k) && !(i == id && k == key)
  {
    assert id in index ==> forall k | k in index[id] :: k in index[id] - {key} || k == key;
  }

  lemma RepeatedChangesAreIdle(index: Adjacency, id: CanonicalID, key: string)
    requires id in index ==> index[id] != {}
    ensures Has(index, id, key) ==> Add(index, id, key) == index
    ensures !Has(index, id, key) ==> Remove(index, id, key) == index
  {
    if Has(index, id, key) {
      assert index[id] + {key} == index[id];
    } else if id in index {
      assert index[id] - {key} == index[id];
    }
  }

  lemma UpsertKeepsIndex(edges: map<string, Edge>, index: Adjacency, key: string, edge: Edge)
    requires Indexed(edges, index)
    requires key in edges ==> edges[key].from == edge.from && edges[key].to == edge.to
    ensures Indexed(edges[key := edge], Add(Add(index, edge.from, key), edge.to, key))
  {
    AddAddsOne(index, edge.from, key);
    AddAddsOne(Add(index, edge.from, key), edge.to, key);
  }

  lemma DeleteKeepsIndex(edges: map<string, Edge>, index: Adjacency, key: string)
    requires Indexed(edges, index) && key in edges
    ensures Indexed(edges - {key}, Remove(Remove(index, edges[key].from, key), edges[key].to, key))
  {
    RemoveRemovesOne(index, edges[key].from, key);
    RemoveRemovesOne(Remove(index, edges[key].from, key), edges[key].to, key);
    assert forall id, k :: Has(index, id, k) && k == key ==> edges[key].Touches(id);
  }

  ghost predicate KeyedByKey(edges: map<string, Edge>) {
    forall key | key in edges :: edges[key].Key() == key
  }

  /** The stored edges by their components instead of their key strings. */
  ghost function ByTriple(edges: map<string, Edge>): (m: EdgeMap)
    requires KeyedByKey(edges)
    ensures forall k :: k in m <==> KeyString(k) in edges
    ensures forall k | k in m :: m[k] == edges[KeyString(k)] && m[k].Triple() == k
  {
    var m := map key | key in edges :: edges[key].Triple() := edges[key];
    assert forall k | KeyString(k) in edges :: k in m by {
      forall k | KeyString(k) in edges
        ensures k in m
      {
        KeyStringIsInjective(k, edges[KeyString(k)].Triple());
      }
    }
    m
  }

  lemma KeyStringNames(k: EdgeKey)
    ensures forall j :: KeyString(j) == KeyString(k) <==> j == k
  {
    hide KeyString;
    forall j | KeyString(j) == KeyString(k)
      ensures j == k
    {
      KeyStringIsInjective(j, k);
    }
  }

  lemma KeyOfStored(edges: map<string, Edge>, key: string)
    requires KeyedByKey(edges) && key in edges
    ensures edges[key].Key() == key
  {
  }

  lemma UpsertedTriples(edges: map<string, Edge>, edge: Edge)
    requires KeyedByKey(edges)
    ensures KeyedByKey(edges[edge.Key() := edge])
    ensures ByTriple(edges[edge.Key() := edge]).Keys == ByTriple(edges).Keys + {edge.Triple()}
  {
    hide KeyString;
    KeyStringNames(edge.Triple());
    var m, m' := ByTriple(edges), ByTriple(edges[edge.Key() := edge]);
    assert forall k :: k in m' <==> KeyString(k) in edges || KeyString(k) == edge.Key();
  }

  lemma UpsertedValues(edges: map<string, Edge>, edge: Edge, k: EdgeKey)
    requires KeyedByKey(edges) && KeyedByKey(edges[edge.Key() := edge]) && k in ByTriple(edges[edge.Key() := edge])
    ensures if k == edge.Triple() then ByTriple(edges[edge.Key() := edge])[k] == edge
            else k in ByTriple(edges) && ByTriple(edges[edge.Key() := edge])[k] == ByTriple(edges)[k]
  {
    hide KeyString;
    KeyStringNames(edge.Triple());
  }

  lemma UpsertByTriple(edges: map<string, Edge>, edge: Edge)
    requires KeyedByKey(edges)
    ensures edge.Key() in edges ==> edges[edge.Key()].Triple() == edge.Triple()
    ensures ByTriple(edges[edge.Key() := edge]) == ByTriple(edges)[edge.Triple() := edge]
  {
    hide KeyString, ByTriple;
    if edge.Key() in edges {
      assert KeyString(edges[edge.Key()].Triple()) == KeyString(edge.Triple());
      KeyStringIsInjective(edges[edge.Key()].Triple(), edge.Triple());
    }
    UpsertedTriples(edges, edge);
    hide KeyedByKey;
    var m, m' := ByTriple(edges), ByTriple(edges[edge.Key() := edge]);
    forall k | k in m'
      ensures m'[k] == m[edge.Triple() := edge][k]
    {
      UpsertedValues(edges, edge, k);
    }
  }

  /** Store.UpsertEdge followed by the kernel's own two index calls. */
  lemma StoreAfterUpsert(edges: map<string, Edge>, index: Adjacency, edge: Edge)
    requires KeyedByKey(edges) && Indexed(edges, index)
    ensures var edges1, key := edges[edge.Key() := edge], edge.Key();
            var index1 := Add(Add(index, edge.from, key), edge.to, key);
            && KeyedByKey(edges1) && Indexed(edges1, index1)
            && Add(Add(index1, edge.from, key), edge.to, key) == index1
            && ByTriple(edges1) == ByTriple(edges)[edge.Triple() := edge]
  {
    hide KeyString;
    UpsertByTriple(edges, edge);
    UpsertKeepsIndex(edges, index, edge.Key(), edge);
    var index1 := Add(Add(index, edge.from, edge.Key()), edge.to, edge.Key());
    AddAddsOne(index, edge.from, edge.Key());
    AddAddsOne(Add(index, edge.from, edge.Key()), edge.to, edge.Key());
    RepeatedChangesAreIdle(index1, edge.from, edge.Key());
    RepeatedChangesAreIdle(index1, edge.to, edge.Key());
  }

  lemma DeleteByTriple(edges: map<string, Edge>, key: string)
    requires KeyedByKey(edges)
    ensures KeyedByKey(edges - {key})
    ensures forall k :: k in ByTriple(edges - {key}) <==> k in ByTriple(edges) && KeyString(k) != key
    ensures forall k | k in ByTriple(edges - {key}) :: ByTriple(edges - {key})[k] == ByTriple(edges)[k]
  {
    hide KeyString;
  }

  /** The kernel's two index calls for a stored edge, then Store.DeleteEdge, which repeats them. */
  lemma StoreAfterDelete(edges: map<string, Edge>, index: Adjacency, key: string)
    requires Indexed(edges, index)
    ensures key !in edges ==> Indexed(edges - {key}, index)
    ensures key in edges ==>
      var from, to := edges[key].from, edges[key].to;
      var index1 := Remove(Remove(index, from, key), to, key);
      Indexed(edges - {key}, index1) && Remove(Remove(index1, from, key), to, key) == index1
  {
    if key in edges {
      DeleteKeepsIndex(edges, index, key);
      var from, to := edges[key].from, edges[key].to;
      var index1 := Remove(Remove(index, from, key), to, key);
      RepeatedChangesAreIdle(index1, from, key);
      RepeatedChangesAreIdle(index1, to, key);
    } else {
      assert edges - {key} == edges;
    }
  }

  /** Once no stored edge touches an identifier, its index entry is gone as well. */
  lemma NothingTouches(edges: map<string, Edge>, index: Adjacency, id: CanonicalID)
    requires KeyedByKey(edges) && Indexed(edges, index)
    requires forall k | k in ByTriple(edges) :: !TouchesKey(k, id)
    ensures forall key | key in edges :: !edges[key].Touches(id)
    ensures index - {id} == index
  {
    hide KeyString;
    if id in index {
      var key :| key in index[id];
      assert Has(index, id, key) && edges[key].Touches(id);
    }
    forall key | key in edges
      ensures !edges[key].Touches(id)
    {
      assert KeyString(edges[key].Triple()) == edges[key].Key();
      assert !TouchesKey(edges[key].Triple(), id);
    }
  }

  /** What is left of `g` once those of the edges seen so far that touch `id` are gone. */
  ghost predicate EdgesGone(g: Graph, now: Graph, seen: seq<Edge>, id: CanonicalID) {
    && now.nodes == g.nodes
    && (forall k :: k in now.edges <==> k in g.edges && !(g.edges[k] in seen && TouchesKey(k, id)))
    && (forall k | k in now.edges :: now.edges[k] == g.edges[k])
  }

  lemma NoneGone(g: Graph, id: CanonicalID)
    ensures EdgesGone(g, g, [], id)
  {
  }

  lemma OneMoreGone(g: Graph, now: Graph, now': Graph, seen: seq<Edge>, edge: Edge, id: CanonicalID)
    requires g.Valid() && EdgesGone(g, now, seen, id) && now'.nodes == now.nodes
    requires edge.Triple() in g.edges && g.edges[edge.Triple()] == edge
    requires if TouchesKey(edge.Triple(), id)
             then (forall k :: k in now'.edges <==> k in now.edges && k != edge.Triple())
                  && forall k | k in now'.edges :: now'.edges[k] == now.edges[k]
             else now'.edges == now.edges
    ensures EdgesGone(g, now', seen + [edge], id)
  {
  }

  lemma AllGone(g: Graph, now: Graph, listed: seq<Edge>, id: CanonicalID)
    requires g.Valid() && EdgesGone(g, now, listed, id) && forall k | k in g.edges :: g.edges[k] in listed
    ensures now.edges == g.WithoutNodes({id}).edges && now.nodes == g.nodes
    ensures forall k | k in now.edges :: !TouchesKey(k, id)
  {
  }

  class Store {
    var nodes: map<CanonicalID, Node>
    var edges: map<string, Edge>
    var neighbors: Adjacency

    constructor ()
      ensures nodes == map[] && edges == map[] && neighbors == map[]
    {
      nodes, edges, neighbors := map[], map[], map[];
    }

    method UpsertNode(node: Node)
      modifies this`nodes
      ensures nodes == old(nodes)[node.id := node]
    {
      nodes := nodes[node.id := node];
    }

    method DeleteNode(id: CanonicalID)
      modifies this`nodes, this`neighbors
      ensures nodes == old(nodes) - {id} && neighbors == old(neighbors) - {id}
    {
      nodes := nodes - {id};
      neighbors := neighbors - {id};
    }

    method UpsertEdge(edge: Edge)
      modifies this`edges, this`neighbors
      ensures edges == old(edges)[edge.Key() := edge]
      ensures neighbors == Add(Add(old(neighbors), edge.from, edge.Key()), edge.to, edge.Key())
    {
      var key := edge.Key();
      edges := edges[key := edge];
      AddNeighbor(edge.from, key);
      AddNeighbor(edge.to, key);
    }

    method DeleteEdge(key: string)
      modifies this`edges, this`neighbors
      ensures edges == old(edges) - {key}
      ensures neighbors == if key in old(edges)
                           then Remove(Remove(old(neighbors), old(edges)[key].from, key), old(edges)[key].to, key)
                           else old(neighbors)
    {
      if key in edges {
        var edge := edges[key];
        RemoveNeighbor(edge.from, key);
        RemoveNeighbor(edge.to, key);
      }
      edges := edges - {key};
    }

    method AddNeighbor(id: CanonicalID, key: string)
      modifies this`neighbors
      ensures neighbors == Add(old(neighbors), id, key)
    {
      if id !in neighbors {
        neighbors := neighbors[id := {}];
      }
      neighbors := neighbors[id := neighbors[id] + {key}];
    }

    method RemoveNeighbor(id: CanonicalID, key: string)
      modifies this`neighbors
      ensures neighbors == Remove(old(neighbors), id, key)
    {
      if id !in neighbors {
        return;
      }
      neighbors := neighbors[id := neighbors[id] - {key}];
      if |neighbors[id]| == 0 {
        neighbors := neighbors - {id};
      }
    }

    /** Map iteration order is arbitrary, so the list may come in any order. */
    method NeighborKeys(id: CanonicalID) returns (keys: seq<string>)
      ensures forall key :: key in keys <==> id in neighbors && key in neighbors[id]
      ensures forall i, j | 0 <= i < j < |keys| :: keys[i] != keys[j]
    {
      keys := [];
      var rest := if id in neighbors then neighbors[id] else {};
      while rest != {}
        invariant forall key :: key in keys || key in rest <==> id in neighbors && key in neighbors[id]
        invariant forall key | key in keys :: key !in rest
        invariant forall i, j | 0 <= i < j < |keys| :: keys[i] != keys[j]
      {
        var key :| key in rest;
        keys, rest := keys + [key], rest - {key};
      }
    }

    method ListNodes() returns (out: seq<Node>)
      requires forall id | id in nodes :: nodes[id].id == id
      ensures forall n :: n in out <==> n.id in nodes && nodes[n.id] == n
      ensures forall i, j | 0 <= i < j < |out| :: out[i].id != out[j].id
    {
      out := [];
      var rest := nodes.Keys;
      while rest != {}
        invariant rest <= nodes.Keys
        invariant forall n :: n in out <==> n.id in nodes && n.id !in rest && nodes[n.id] == n
        invariant forall i, j | 0 <= i < j < |out| :: out[i].id != out[j].id
      {
        var id :| id in rest;
        out, rest := out + [nodes[id]], rest - {id};
      }
    }

    method ListEdges() returns (out: seq<Edge>)
      requires KeyedByKey(edges)
      ensures forall e :: e in out <==> e.Key() in edges && edges[e.Key()] == e
      ensures forall i, j | 0 <= i < j < |out| :: out[i].Key() != out[j].Key()
    {
      out := [];
      var rest := edges.Keys;
      while rest != {}
        invariant rest <= edges.Keys
        invariant forall e :: e in out <==> e.Key() in edges && e.Key() !in rest && edges[e.Key()] == e
        invariant forall i, j | 0 <= i < j < |out| :: out[i].Key() != out[j].Key()
      {
        var key :| key in rest;
        out, rest := out + [edges[key]], rest - {key};
      }
    }
  }

  /** All nodes of the graph, each once. */
  ghost predicate NodesOnce(g: Graph, ns: seq<Node>) {
    && (forall n :: n in ns <==> n.id in g.nodes && g.nodes[n.id] == n)
    && forall i, j | 0 <= i < j < |ns| :: ns[i].id != ns[j].id
  }

  lemma NodesOnceAt(g: Graph, ns: seq<Node>, i: nat)
    requires NodesOnce(g, ns) && i < |ns|
    ensures ns[i].id in g.nodes && g.nodes[ns[i].id] == ns[i] && ns[i] !in ns[..i]
  {
  }

  lemma NodesOnceAll(g: Graph, ns: seq<Node>)
    requires g.Valid() && NodesOnce(g, ns)
    ensures forall id | id in g.nodes :: g.nodes[id] in ns
  {
  }

  class Kernel {
    const store: Store

    /** The runtime hands the same store to the kernel as graph store and as index. */
    constructor (store: Store)
      requires store.nodes == map[] && store.edges == map[] && store.neighbors == map[]
      ensures this.store == store && Valid() && View() == EMPTY_GRAPH
    {
      this.store := store;
    }

    ghost predicate Valid()
      reads this, store
    {
      && (forall id | id in store.nodes :: store.nodes[id].id == id)
      && KeyedByKey(store.edges)
      && Indexed(store.edges, store.neighbors)
    }

    /** The graph value the kernel stands for. */
    ghost function View(): (g: Graph)
      requires Valid()
      reads this, store
      ensures g.Valid() && g.nodes == store.nodes
    {
      Graph(store.nodes, ByTriple(store.edges))
    }

    method UpsertNode(node: Node)
      requires Valid()
      modifies store
      ensures Valid() && View() == old(View()).WithNode(node)
    {
      store.UpsertNode(node);
    }

    method DeleteNode(id: CanonicalID)
      requires Valid()
      modifies store
      ensures Valid() && View() == old(View()).WithoutNodes({id})
      ensures forall key | key in store.edges :: !store.edges[key].Touches(id)
    {
      hide KeyString, KeyedByKey, Indexed, ByTriple, EdgesGone;
      var listed := ListEdges();
      ghost var g := View();
      NoneGone(g, id);
      for i := 0 to |listed|
        invariant Valid() && EdgesGone(g, View(), listed[..i], id)
      {
        var edge := listed[i];
        ghost var now := View();
        assert listed[..i + 1] == listed[..i] + [edge];
        KeyStringNames(edge.Triple());
        if edge.from == id || edge.to == id {
          DeleteEdge(edge.Key());
        }
        OneMoreGone(g, now, View(), listed[..i], edge, id);
      }
      assert listed[..|listed|] == listed;
      AllGone(g, View(), listed, id);
      NothingTouches(store.edges, store.neighbors, id);
      store.DeleteNode(id);
    }

    method UpsertEdge(edge: Edge)
      requires Valid()
      modifies store
      ensures Valid() && View() == old(View()).WithEdge(edge)
    {
      hide KeyString, KeyedByKey, Indexed, ByTriple, Add;
      StoreAfterUpsert(store.edges, store.neighbors, edge);
      store.UpsertEdge(edge);
      store.AddNeighbor(edge.from, edge.Key());
      store.AddNeighbor(edge.to, edge.Key());
    }

    method DeleteEdge(key: string)
      requires Valid()
      modifies store
      ensures Valid() && store.nodes == old(store.nodes) && store.edges == old(store.edges) - {key}
      ensures View().nodes == old(View()).nodes
      ensures forall k :: k in View().edges <==> k in old(View()).edges && KeyString(k) != key
      ensures forall k | k in View().edges :: View().edges[k] == old(View()).edges[k]
    {
      hide KeyString, KeyedByKey, Indexed, ByTriple, Remove;
      var listed := store.ListEdges();
      ghost var edges0, index0 := store.edges, store.neighbors;
      StoreAfterDelete(edges0, index0, key);
      DeleteByTriple(edges0, key);
      var i := 0;
      while i < |listed|
        invariant 0 <= i <= |listed|
        invariant store.nodes == old(store.nodes) && store.edges == edges0 && store.neighbors == index0
        invariant forall j | 0 <= j < i :: listed[j].Key() != key
      {
        var edge := listed[i];
        if edge.Key() == key {
          store.RemoveNeighbor(edge.from, key);
          store.RemoveNeighbor(edge.to, key);
          break;
        }
        i := i + 1;
      }
      if key in edges0 {
        KeyOfStored(edges0, key);
        assert edges0[key] in listed;
      }
      store.DeleteEdge(key);
    }

    method GetNode(id: CanonicalID) returns (node: Node, ok: bool)
      requires Valid()
      ensures ok <==> id in View().nodes
      ensures ok ==> node == View().nodes[id] && node.id == id
    {
      ok := id in store.nodes;
      node := if ok then store.nodes[id] else Node(id, NodeKind.Cluster, "", "", "", map[]);
    }

    method ListNodes() returns (out: seq<Node>)
      requires Valid()
      ensures NodesOnce(View(), out)
    {
      out := store.ListNodes();
    }

    method ListEdges() returns (out: seq<Edge>)
      requires Valid()
      ensures forall e :: e in out <==> e.Triple() in View().edges && View().edges[e.Triple()] == e
      ensures forall i, j | 0 <= i < j < |out| :: out[i].Triple() != out[j].Triple()
    {
      out := store.ListEdges();
    }

    /** The index answers exactly what a full scan filtered on the identifier would, in some order. */
    method Neighbors(id: CanonicalID) returns (matched: seq<Edge>)
      requires Valid()
      ensures forall e :: e in matched <==>
        e.Triple() in View().edges && View().edges[e.Triple()] == e && e.Touches(id)
      ensures forall i, j | 0 <= i < j < |matched| :: matched[i].Triple() != matched[j].Triple()
    {
      hide KeyString, KeyedByKey, Indexed, ByTriple;
      var keys := store.NeighborKeys(id);
      IndexedAreStored(store.edges, store.neighbors, id, keys);
      matched := [];
      for i := 0 to |keys|
        invariant |matched| == i
        invariant forall j | 0 <= j < i :: keys[j] in store.edges && matched[j] == store.edges[keys[j]]
      {
        if keys[i] in store.edges {
          matched := matched + [store.edges[keys[i]]];
        }
      }
      IndexIsAScan(store.edges, store.neighbors, id, keys, matched);
      StoredByTriple(store.edges);
    }
  }

  lemma IndexedAreStored(edges: map<string, Edge>, index: Adjacency, id: CanonicalID, keys: seq<string>)
    requires Indexed(edges, index) && forall key :: key in keys <==> id in index && key in index[id]
    ensures forall j | 0 <= j < |keys| :: keys[j] in edges
  {
    forall j | 0 <= j < |keys|
      ensures keys[j] in edges
    {
      assert keys[j] in keys;
      assert Has(index, id, keys[j]);
    }
  }

  /** An edge is stored under its key exactly when it is stored under its components. */
  lemma StoredByTriple(edges: map<string, Edge>)
    requires KeyedByKey(edges)
    ensures forall e: Edge :: e.Key() in edges && edges[e.Key()] == e <==> e.Triple() in ByTriple(edges) && ByTriple(edges)[e.Triple()] == e
  {
    hide KeyString;
  }

  /** Looking up the indexed keys in turn lists exactly the stored edges that touch the identifier. */
  lemma IndexIsAScan(edges: map<string, Edge>, index: Adjacency, id: CanonicalID, keys: seq<string>, matched: seq<Edge>)
    requires KeyedByKey(edges) && Indexed(edges, index) && |matched| == |keys|
    requires forall key :: key in keys <==> id in index && key in index[id]
    requires forall i, j | 0 <= i < j < |keys| :: keys[i] != keys[j]
    requires forall j | 0 <= j < |keys| :: keys[j] in edges && matched[j] == edges[keys[j]]
    ensures forall e :: e in matched <==> e.Key() in edges && edges[e.Key()] == e && e.Touches(id)
    ensures forall i, j | 0 <= i < j < |matched| :: matched[i].Triple() != matched[j].Triple()
  {
    hide KeyString;
    assert forall j | 0 <= j < |keys| :: keys[j] in keys && matched[j].Key() == keys[j];
    forall e
      ensures e in matched <==> e.Key() in edges && edges[e.Key()] == e && e.Touches(id)
    {
      if e.Key() in edges && edges[e.Key()] == e && e.Touches(id) {
        assert Has(index, id, e.Key());
        var j :| 0 <= j < |keys| && keys[j] == e.Key();
        assert matched[j] == e;
      }
      if e in matched {
        var j :| 0 <= j < |keys| && matched[j] == e;
        assert Has(index, id, keys[j]);
      }
    }
  }
}
