/** What an expansion finds, said by hops from entity to entity. */
module ExpandMeaning {
  import opened Identity
  import opened Strings
  import opened GraphModel
  import opened Expand

  /** A stored relation of the kind asked for leads from `u` to `v`, in the direction asked for. */
  ghost predicate Leads(g: Graph, o: ExpandOptions, u: CanonicalID, k: EdgeKey, v: CanonicalID) {
    && k in g.edges && u in g.nodes && v in g.nodes
    && (o.relationKind == "" || EqualFoldAscii(o.relationKind, EdgeKindName(k.kind)))
    && match o.direction
       case "out" => k == EdgeKey(u, k.kind, v)
       case "in" => k == EdgeKey(v, k.kind, u)
       case _ => k == EdgeKey(u, k.kind, v) || k == EdgeKey(v, k.kind, u)
  }

  /** At most `hops` such relations lead from the root to the entity. */
  ghost predicate InHops(g: Graph, o: ExpandOptions, v: CanonicalID, hops: nat)
    decreases hops
  {
    if hops == 0 then v == o.entityID
    else InHops(g, o, v, hops - 1) || exists u, k :: InHops(g, o, u, hops - 1) && Leads(g, o, u, k, v)
  }

  lemma HopsLead(g: Graph, o: ExpandOptions, u: CanonicalID, k: EdgeKey)
    requires g.Valid()
    ensures Hop(g, o, u, k) <==> exists v :: Leads(g, o, u, k, v)
    ensures forall v :: Leads(g, o, u, k, v) <==> Hop(g, o, u, k) && v == Far(k, u)
  {
    hide EdgeKindName, EqualFoldAscii;
    assert Hop(g, o, u, k) ==> Leads(g, o, u, k, Far(k, u));
  }

  lemma {:induction false} BallIsHops(g: Graph, o: ExpandOptions, hops: nat)
    requires g.Valid()
    ensures forall v :: v in Ball(g, o, hops) <==> InHops(g, o, v, hops)
  {
    hide Hop, Leads;
    if hops > 0 {
      BallIsHops(g, o, hops - 1);
      forall u, k { HopsLead(g, o, u, k); }
      forall v
        ensures v in Ball(g, o, hops) <==> InHops(g, o, v, hops)
      {
        if v in Ball(g, o, hops) && v !in Ball(g, o, hops - 1) {
          var u, k :| u in Ball(g, o, hops - 1) && k in g.edges && Hop(g, o, u, k) && Far(k, u) == v;
          assert InHops(g, o, u, hops - 1) && Leads(g, o, u, k, v);
        }
        if u, k :| InHops(g, o, u, hops - 1) && Leads(g, o, u, k, v) {
          assert u in Ball(g, o, hops - 1) && Hop(g, o, u, k) && Far(k, u) == v;
          LeadsAcross(g, o, u, k, v);
        }
      }
    }
  }

  lemma LeadsAcross(g: Graph, o: ExpandOptions, u: CanonicalID, k: EdgeKey, v: CanonicalID)
    requires Leads(g, o, u, k, v)
    ensures k in g.edges
  {
  }

  lemma BallEdgesAreHops(g: Graph, o: ExpandOptions, hops: nat)
    requires g.Valid() && hops > 0
    ensures forall k :: k in BallEdges(g, o, hops) <==> exists u, v :: InHops(g, o, u, hops - 1) && Leads(g, o, u, k, v)
  {
    hide Hop, Leads, Ball, InHops;
    BallIsHops(g, o, hops - 1);
    forall u, k { HopsLead(g, o, u, k); }
    forall k, u, v | InHops(g, o, u, hops - 1) && Leads(g, o, u, k, v)
      ensures k in BallEdges(g, o, hops)
    {
      LeadsAcross(g, o, u, k, v);
      assert u in Ball(g, o, hops - 1) && Hop(g, o, u, k);
    }
    forall k | k in BallEdges(g, o, hops)
      ensures exists u, v :: InHops(g, o, u, hops - 1) && Leads(g, o, u, k, v)
    {
      var u :| u in Ball(g, o, hops - 1) && Hop(g, o, u, k);
      assert Leads(g, o, u, k, Far(k, u));
    }
  }

  /** An expansion lists entities within its hops and relations that lead on from a nearer one, and, when the limit is twice the number of
      stored relations, all of these. */
  lemma ExpansionsAreHops(g: Graph, asked: ExpandOptions, entry: Node, nodes: seq<Node>, edges: seq<Edge>)
    requires g.Valid() && IsExpansion(g, WithDefaults(asked), entry, nodes, edges) && asked.depth >= 0
    ensures var depth, limit := if asked.depth == 0 then 1 else asked.depth, if asked.limit == 0 then 200 else asked.limit;
            && |edges| <= limit
            && (forall n | n in nodes :: InHops(g, asked, n.id, depth))
            && (forall e | e in edges :: exists u, v :: InHops(g, asked, u, depth - 1) && Leads(g, asked, u, e.Triple(), v))
            && (limit >= 2 * |g.edges| ==>
                  && (forall id | InHops(g, asked, id, depth) :: exists n | n in nodes :: n.id == id)
                  && forall k, u, v | InHops(g, asked, u, depth - 1) && Leads(g, asked, u, k, v) :: exists e | e in edges :: e.Triple() == k)
  {
    var o := WithDefaults(asked);
    hide Ball, BallEdges, ListsSubgraph, InHops, Leads;
    BallIsHops(g, o, o.depth);
    BallEdgesAreHops(g, o, o.depth);
    SameHops(g, asked, o, o.depth);
    SameHops(g, asked, o, o.depth - 1);
    forall u, k, v { SameLeads(g, asked, o, u, k, v); }
    assert forall n | n in nodes :: n.id in Found(nodes);
    assert forall e | e in edges :: e.Triple() in Crossed(edges);
    if o.limit >= 2 * |g.edges| {
      forall k, u, v | InHops(g, asked, u, o.depth - 1) && Leads(g, asked, u, k, v)
        ensures exists e | e in edges :: e.Triple() == k
      {
        assert k in Crossed(edges);
      }
    }
  }

  lemma SameLeads(g: Graph, o: ExpandOptions, p: ExpandOptions, u: CanonicalID, k: EdgeKey, v: CanonicalID)
    requires o.entityID == p.entityID && o.direction == p.direction && o.relationKind == p.relationKind
    ensures Leads(g, o, u, k, v) <==> Leads(g, p, u, k, v)
  {
  }

  lemma {:induction false} SameHops(g: Graph, o: ExpandOptions, p: ExpandOptions, hops: nat)
    requires o.entityID == p.entityID && o.direction == p.direction && o.relationKind == p.relationKind
    ensures forall v :: InHops(g, o, v, hops) <==> InHops(g, p, v, hops)
  {
    hide Leads;
    forall u, k, v { SameLeads(g, o, p, u, k, v); }
    if hops > 0 {
      SameHops(g, o, p, hops - 1);
    }
  }

  /** So every relation of an "out" expansion starts at an entity found one hop earlier at the latest, and every one of an "in" expansion
      ends at one. */
  lemma DirectionsAreKept(g: Graph, asked: ExpandOptions, entry: Node, nodes: seq<Node>, edges: seq<Edge>, e: Edge)
    requires g.Valid() && IsExpansion(g, WithDefaults(asked), entry, nodes, edges) && asked.depth >= 0 && e in edges
    ensures var depth := if asked.depth == 0 then 1 else asked.depth;
            && (asked.direction == "out" ==> InHops(g, asked, e.from, depth - 1))
            && (asked.direction == "in" ==> InHops(g, asked, e.to, depth - 1))
  {
    ExpansionsAreHops(g, asked, entry, nodes, edges);
    hide IsExpansion, InHops, EqualFoldAscii;
  }
}
