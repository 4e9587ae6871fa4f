/** Saved graphs with expansion layers, and collapsing the layers expanded from one node. */
module GraphState {
  import opened Strings
  import opened Sorting
  import opened GraphModel

  datatype DiagnosticNode = DiagnosticNode(
    canonicalID: string, kind: string, sourceKind: string, name: string, namespace: string, attributes: map<string, Value>)

  datatype DiagnosticEdge = DiagnosticEdge(from: string, to: string, kind: string, resolver: string)

  /** Raw JSON fields are kept as text; the empty text stands for an absent field. */
  datatype Layer = Layer(
    source: string, mode: string, status: string, entry: string, nodes: seq<DiagnosticNode>, edges: seq<DiagnosticEdge>,
    collectedAt: string, explanation: seq<string>)

  datatype Expansion = Expansion(layer: Layer, expandedFrom: string, depth: int, direction: string, limit: int)

  datatype BaseGraph = NoBase | Base(layer: Layer)

  datatype Document = Document(view: Layer, baseGraph: BaseGraph, expansions: seq<Expansion>)

  datatype CollapseResult = Collapsed(doc: Document) | Rejected(reason: string)

  function NodeID(): DiagnosticNode -> string { (n: DiagnosticNode) => n.canonicalID }

  function EdgeID(): DiagnosticEdge -> string {
    (e: DiagnosticEdge) => e.from + "\U{0}" + e.to + "\U{0}" + e.kind
  }

  function NodeOrder(): DiagnosticNode -> seq<string> {
    (n: DiagnosticNode) => [n.kind, n.namespace, n.name, n.canonicalID]
  }

  function EdgeOrder(): DiagnosticEdge -> seq<string> {
    (e: DiagnosticEdge) => [EdgeID()(e)]
  }

  function Remaining(expansions: seq<Expansion>, id: string): seq<Expansion> {
    if expansions == [] then []
    else
      Remaining(expansions[..|expansions| - 1], id)
      + if expansions[|expansions| - 1].expandedFrom == id then [] else [expansions[|expansions| - 1]]
  }

  function NodesOf(): Expansion -> seq<DiagnosticNode> { (x: Expansion) => x.layer.nodes }
  function EdgesOf(): Expansion -> seq<DiagnosticEdge> { (x: Expansion) => x.layer.edges }
  function NotesOf(): Expansion -> seq<string> { (x: Expansion) => x.layer.explanation }

  /** The last collection time among the layers that carry one. */
  function CollectedAt(base: string, expansions: seq<Expansion>): string {
    if expansions == [] then base
    else if expansions[|expansions| - 1].layer.collectedAt != "" then expansions[|expansions| - 1].layer.collectedAt
    else CollectedAt(base, expansions[..|expansions| - 1])
  }

  // ---- Last value per key, in canonical order ----

  function LastBy<T>(xs: seq<T>, key: T -> string): map<string, T> {
    if xs == [] then map[] else LastBy(xs[..|xs| - 1], key)[key(xs[|xs| - 1]) := xs[|xs| - 1]]
  }

  /** `x` is the last listed value under its key. */
  ghost predicate IsLast<T>(xs: seq<T>, key: T -> string, x: T) {
    exists i | 0 <= i < |xs| :: xs[i] == x && forall j | i < j < |xs| :: key(xs[j]) != key(x)
  }

  lemma LastOfMore<T>(init: seq<T>, last: T, key: T -> string, x: T)
    ensures IsLast(init + [last], key, last)
    ensures IsLast(init, key, x) && key(x) != key(last) ==> IsLast(init + [last], key, x)
  {
    var xs := init + [last];
    assert xs[|init|] == last;
    if IsLast(init, key, x) && key(x) != key(last) {
      var i :| 0 <= i < |init| && init[i] == x && forall j | i < j < |init| :: key(init[j]) != key(x);
      assert xs[i] == x;
    }
  }

  lemma {:induction false} LastByHoldsLast<T>(xs: seq<T>, key: T -> string)
    ensures forall k | k in LastBy(xs, key) :: key(LastBy(xs, key)[k]) == k && IsLast(xs, key, LastBy(xs, key)[k])
    ensures forall x | x in xs :: key(x) in LastBy(xs, key)
  {
    if xs != [] {
      var init, last := xs[..|xs| - 1], xs[|xs| - 1];
      LastByHoldsLast(init, key);
      assert xs == init + [last];
      hide IsLast;
      forall k | k in LastBy(xs, key)
        ensures key(LastBy(xs, key)[k]) == k && IsLast(xs, key, LastBy(xs, key)[k])
      {
        LastOfMore(init, last, key, LastBy(xs, key)[k]);
      }
    }
  }

  lemma LastIsUnique<T>(xs: seq<T>, key: T -> string, x: T, y: T)
    requires IsLast(xs, key, x) && IsLast(xs, key, y) && key(x) == key(y)
    ensures x == y
  {
    var i :| 0 <= i < |xs| && xs[i] == x && forall j | i < j < |xs| :: key(xs[j]) != key(x);
    var k :| 0 <= k < |xs| && xs[k] == y && forall j | k < j < |xs| :: key(xs[j]) != key(y);
    assert i == k;
  }

  /** A list of the last value under each key, once each, in order. */
  ghost predicate ListsLast<T>(out: seq<T>, xs: seq<T>, key: T -> string, order: T -> seq<string>) {
    && Distinct(out) && Sorted(out, order)
    && (forall x | x in out :: IsLast(xs, key, x)) && forall x | x in xs && IsLast(xs, key, x) :: x in out
  }

  /** There is only one such list when the order refines the key. */
  lemma ListsLastIsUnique<T>(a: seq<T>, b: seq<T>, xs: seq<T>, key: T -> string, order: T -> seq<string>)
    requires ListsLast(a, xs, key, order) && ListsLast(b, xs, key, order)
    requires forall x, y | order(x) == order(y) :: key(x) == key(y)
    ensures a == b
  {
    DistinctListsPermute(a, b);
    forall x, y | x in a && y in a && order(x) == order(y)
      ensures x == y
    {
      LastIsUnique(xs, key, x, y);
    }
    SortedIsUnique(a, b, order);
  }

  lemma OrdersRefineKeys()
    ensures forall x, y | NodeOrder()(x) == NodeOrder()(y) :: NodeID()(x) == NodeID()(y)
    ensures forall x, y | EdgeOrder()(x) == EdgeOrder()(y) :: EdgeID()(x) == EdgeID()(y)
  {
    assert forall x :: NodeOrder()(x)[3] == x.canonicalID;
    assert forall x :: EdgeOrder()(x)[0] == EdgeID()(x);
  }

  // ---- What a collapse returns ----

  ghost predicate IsCollapse(doc: Document, id: string, out: Document)
    requires doc.baseGraph.Base?
  {
    var base, rest := doc.baseGraph.layer, Remaining(doc.expansions, id);
    && out.baseGraph == doc.baseGraph && out.expansions == rest
    && out.view.source == base.source && out.view.mode == base.mode && out.view.status == base.status && out.view.entry == base.entry
    && out.view.collectedAt == CollectedAt(base.collectedAt, rest)
    && out.view.explanation == base.explanation + Flat(rest, NotesOf()) + ["collapsed " + id]
    && ListsLast(out.view.nodes, base.nodes + Flat(rest, NodesOf()), NodeID(), NodeOrder())
    && ListsLast(out.view.edges, base.edges + Flat(rest, EdgesOf()), EdgeID(), EdgeOrder())
  }

  predicate HasLayer(expansions: seq<Expansion>, id: string) {
    exists x | x in expansions :: x.expandedFrom == id
  }

  predicate CanCollapse(doc: Document, id: string) {
    id != "" && doc.baseGraph.Base? && HasLayer(doc.expansions, id)
  }

  // ---- The collapse as the source runs it ----

  /** One loop over a list of values, each stored under its key. */
  method Fill<T>(m: map<string, T>, xs: seq<T>, key: T -> string, ghost before: seq<T>) returns (out: map<string, T>)
    requires m == LastBy(before, key)
    ensures out == LastBy(before + xs, key)
  {
    out := m;
    assert before + xs[..0] == before;
    for i := 0 to |xs|
      invariant out == LastBy(before + xs[..i], key)
    {
      assert (before + xs[..i + 1])[..|before| + i] == before + xs[..i];
      out := out[key(xs[i]) := xs[i]];
    }
    PrefixEnds(xs);
  }

  /** The values of the map, taken in any order and sorted. */
  method SortedValues<T(==, !new)>(m: map<string, T>, order: T -> seq<string>, ghost xs: seq<T>, key: T -> string) returns (out: seq<T>)
    requires m == LastBy(xs, key)
    ensures ListsLast(out, xs, key, order)
  {
    LastByHoldsLast(xs, key);
    var listed: seq<T> := [];
    var rest := m.Keys;
    while rest != {}
      invariant rest <= m.Keys && Distinct(listed)
      invariant forall x :: x in listed <==> key(x) in m && key(x) !in rest && m[key(x)] == x
    {
      var k :| k in rest;
      listed, rest := listed + [m[k]], rest - {k};
    }
    SortKeeps(listed, order);
    out := SortBy(listed, order);
    DistinctSurvives(listed, out);
    SameElements(listed, out);
    hide IsLast, SortBy, Sorted;
    assert forall x :: x in out ==> x in listed;
    assert forall x :: x in listed ==> key(x) in m && m[key(x)] == x;
    forall x | x in xs && IsLast(xs, key, x)
      ensures x in out
    {
      LastIsUnique(xs, key, x, m[key(x)]);
    }
  }

  /** What the loop over the remaining layers has gathered after the first `i`. */
  ghost predicate Gathered(base: Layer, rest: seq<Expansion>, i: nat, nodeByID: map<string, DiagnosticNode>,
                           edgeByKey: map<string, DiagnosticEdge>, explanation: seq<string>, collectedAt: string)
    requires i <= |rest|
  {
    && nodeByID == LastBy(base.nodes + Flat(rest[..i], NodesOf()), NodeID())
    && edgeByKey == LastBy(base.edges + Flat(rest[..i], EdgesOf()), EdgeID())
    && explanation == base.explanation + Flat(rest[..i], NotesOf())
    && collectedAt == CollectedAt(base.collectedAt, rest[..i])
  }

  lemma NothingGathered(base: Layer, rest: seq<Expansion>)
    ensures Gathered(base, rest, 0, LastBy(base.nodes, NodeID()), LastBy(base.edges, EdgeID()), base.explanation, base.collectedAt)
  {
    assert base.nodes + [] == base.nodes && base.edges + [] == base.edges && base.explanation + [] == base.explanation;
  }

  lemma OneMoreLayer(base: Layer, rest: seq<Expansion>, i: nat)
    requires i < |rest|
    ensures base.nodes + Flat(rest[..i + 1], NodesOf()) == (base.nodes + Flat(rest[..i], NodesOf())) + rest[i].layer.nodes
    ensures base.edges + Flat(rest[..i + 1], EdgesOf()) == (base.edges + Flat(rest[..i], EdgesOf())) + rest[i].layer.edges
    ensures base.explanation + Flat(rest[..i + 1], NotesOf()) == (base.explanation + Flat(rest[..i], NotesOf())) + rest[i].layer.explanation
    ensures CollectedAt(base.collectedAt, rest[..i + 1]) ==
            if rest[i].layer.collectedAt != "" then rest[i].layer.collectedAt else CollectedAt(base.collectedAt, rest[..i])
  {
    FlatStep(rest, i, NodesOf());
    FlatStep(rest, i, EdgesOf());
    FlatStep(rest, i, NotesOf());
    assert rest[..i + 1][..i] == rest[..i];
  }

  method GatherLayers(base: Layer, rest: seq<Expansion>)
    returns (nodeByID: map<string, DiagnosticNode>, edgeByKey: map<string, DiagnosticEdge>, explanation: seq<string>, collectedAt: string)
    ensures Gathered(base, rest, |rest|, nodeByID, edgeByKey, explanation, collectedAt)
  {
    hide LastBy, Flat, CollectedAt;
    NothingYet<DiagnosticNode>(NodeID());
    NothingYet<DiagnosticEdge>(EdgeID());
    assert [] + base.nodes == base.nodes && [] + base.edges == base.edges;
    nodeByID := Fill(map[], base.nodes, NodeID(), []);
    edgeByKey := Fill(map[], base.edges, EdgeID(), []);
    explanation, collectedAt := base.explanation, base.collectedAt;
    NothingGathered(base, rest);
    for i := 0 to |rest|
      invariant Gathered(base, rest, i, nodeByID, edgeByKey, explanation, collectedAt)
    {
      var layer := rest[i].layer;
      OneMoreLayer(base, rest, i);
      nodeByID := Fill(nodeByID, layer.nodes, NodeID(), base.nodes + Flat(rest[..i], NodesOf()));
      edgeByKey := Fill(edgeByKey, layer.edges, EdgeID(), base.edges + Flat(rest[..i], EdgesOf()));
      explanation := explanation + layer.explanation;
      if layer.collectedAt != "" {
        collectedAt := layer.collectedAt;
      }
    }
  }

  method CollapseGraphExpansion(doc: Document, id: string) returns (r: CollapseResult)
    ensures r.Collapsed? <==> CanCollapse(doc, id)
    ensures r.Collapsed? ==> IsCollapse(doc, id, r.doc)
  {
    hide LastBy, ListsLast, Flat, CollectedAt, Remaining;
    if id == "" {
      return Rejected("entity-id is required with --collapse-node");
    }
    if doc.baseGraph.NoBase? {
      return Rejected("graph file does not include expansion state");
    }
    var remaining, removed := Survivors(doc.expansions, id);
    if !removed {
      return Rejected("selected node has no expanded layer to collapse");
    }
    var base := doc.baseGraph.layer;
    var nodeByID, edgeByKey, explanation, collectedAt := GatherLayers(base, remaining);
    PrefixEnds(remaining);
    var nodes := SortedValues(nodeByID, NodeOrder(), base.nodes + Flat(remaining, NodesOf()), NodeID());
    var edges := SortedValues(edgeByKey, EdgeOrder(), base.edges + Flat(remaining, EdgesOf()), EdgeID());
    var view := Layer(base.source, base.mode, base.status, base.entry, nodes, edges, collectedAt, explanation + ["collapsed " + id]);
    return Collapsed(Document(view, doc.baseGraph, remaining));
  }

  lemma NothingYet<T>(key: T -> string)
    ensures LastBy([], key) == map[]
  {
  }

  method Survivors(expansions: seq<Expansion>, id: string) returns (remaining: seq<Expansion>, removed: bool)
    ensures remaining == Remaining(expansions, id) && (removed <==> HasLayer(expansions, id))
  {
    remaining, removed := [], false;
    for i := 0 to |expansions|
      invariant remaining == Remaining(expansions[..i], id) && (removed <==> HasLayer(expansions[..i], id))
    {
      assert expansions[..i + 1][..i] == expansions[..i];
      PrefixStep(expansions, i);
      if expansions[i].expandedFrom == id {
        removed := true;
        continue;
      }
      remaining := remaining + [expansions[i]];
    }
    PrefixEnds(expansions);
  }

  // ---- Collapsing twice ----

  lemma {:induction false} RemainingCommutes(expansions: seq<Expansion>, a: string, b: string)
    ensures Remaining(Remaining(expansions, a), b) == Remaining(Remaining(expansions, b), a)
  {
    if expansions != [] {
      var init, last := expansions[..|expansions| - 1], expansions[|expansions| - 1];
      RemainingCommutes(init, a, b);
      RemainingOfOneMore(Remaining(init, a), last, b);
      RemainingOfOneMore(Remaining(init, b), last, a);
      assert Remaining(init, a) + [] == Remaining(init, a) && Remaining(init, b) + [] == Remaining(init, b);
    }
  }

  lemma RemainingOfOneMore(expansions: seq<Expansion>, last: Expansion, id: string)
    ensures Remaining(expansions + [last], id) == Remaining(expansions, id) + if last.expandedFrom == id then [] else [last]
  {
    assert (expansions + [last])[..|expansions|] == expansions;
  }

  lemma {:induction false} OtherLayersRemain(expansions: seq<Expansion>, a: string)
    ensures forall x :: x in Remaining(expansions, a) <==> x in expansions && x.expandedFrom != a
  {
    if expansions != [] {
      OtherLayersRemain(expansions[..|expansions| - 1], a);
      assert expansions == expansions[..|expansions| - 1] + [expansions[|expansions| - 1]];
    }
  }

  /** Collapsing `a` then `b` succeeds exactly when collapsing `b` then `a` does. */
  lemma CollapsesSucceedAlike(doc: Document, a: string, b: string, afterA: Document, afterB: Document)
    requires CanCollapse(doc, a) && IsCollapse(doc, a, afterA) && CanCollapse(doc, b) && IsCollapse(doc, b, afterB)
    ensures CanCollapse(afterA, b) <==> a != b
    ensures CanCollapse(afterB, a) <==> a != b
  {
    hide ListsLast;
    OtherLayersRemain(doc.expansions, a);
    OtherLayersRemain(doc.expansions, b);
    hide Remaining;
    var x :| x in doc.expansions && x.expandedFrom == a;
    var y :| y in doc.expansions && y.expandedFrom == b;
    if a != b {
      assert y in afterA.expansions && x in afterB.expansions;
    }
  }

  /** Collapsing `a` then `b` gives the same document as `b` then `a`, but for the note naming the last collapse. */
  lemma CollapsesCommute(doc: Document, a: string, b: string, afterA: Document, afterB: Document, ab: Document, ba: Document)
    requires doc.baseGraph.Base? && IsCollapse(doc, a, afterA) && IsCollapse(doc, b, afterB)
    requires IsCollapse(afterA, b, ab) && IsCollapse(afterB, a, ba)
    ensures ab.view.nodes == ba.view.nodes && ab.view.edges == ba.view.edges
    ensures ab.expansions == ba.expansions && ab.baseGraph == ba.baseGraph == doc.baseGraph
    ensures ab == ba.(view := ba.view.(explanation := ab.view.explanation))
    ensures |ab.view.explanation| == |ba.view.explanation| > 0
    ensures ab.view.explanation[..|ab.view.explanation| - 1] == ba.view.explanation[..|ba.view.explanation| - 1]
  {
    hide ListsLast, Remaining;
    RemainingCommutes(doc.expansions, a, b);
    OrdersRefineKeys();
    var base, rest := doc.baseGraph.layer, Remaining(Remaining(doc.expansions, a), b);
    ListsLastIsUnique(ab.view.nodes, ba.view.nodes, base.nodes + Flat(rest, NodesOf()), NodeID(), NodeOrder());
    ListsLastIsUnique(ab.view.edges, ba.view.edges, base.edges + Flat(rest, EdgesOf()), EdgeID(), EdgeOrder());
  }

  /** A collapse depends on the base and the remaining layers alone: what the document shows is rebuilt. */
  lemma CollapseForgetsTheView(doc: Document, other: Layer, id: string, out: Document, out': Document)
    requires doc.baseGraph.Base? && IsCollapse(doc, id, out) && IsCollapse(doc.(view := other), id, out')
    ensures out == out'
  {
    hide ListsLast, Remaining;
    OrdersRefineKeys();
    var base, rest := doc.baseGraph.layer, Remaining(doc.expansions, id);
    ListsLastIsUnique(out.view.nodes, out'.view.nodes, base.nodes + Flat(rest, NodesOf()), NodeID(), NodeOrder());
    ListsLastIsUnique(out.view.edges, out'.view.edges, base.edges + Flat(rest, EdgesOf()), EdgeID(), EdgeOrder());
  }

  // ---- Which values a collapse keeps ----

  /** The base or a layer expanded from another node holds the edge. */
  ghost predicate HoldsEdge(doc: Document, id: string, e: DiagnosticEdge)
    requires doc.baseGraph.Base?
  {
    e in doc.baseGraph.layer.edges || exists x | x in doc.expansions :: x.expandedFrom != id && e in x.layer.edges
  }

  ghost predicate HoldsNode(doc: Document, id: string, n: DiagnosticNode)
    requires doc.baseGraph.Base?
  {
    n in doc.baseGraph.layer.nodes || exists x | x in doc.expansions :: x.expandedFrom != id && n in x.layer.nodes
  }

  lemma EdgeIDsTell(a: DiagnosticEdge, b: DiagnosticEdge)
    requires '\U{0}' !in a.from && '\U{0}' !in a.to && '\U{0}' !in b.from && '\U{0}' !in b.to
    ensures EdgeID()(a) == EdgeID()(b) <==> a.from == b.from && a.to == b.to && a.kind == b.kind
  {
    var x, y := a.to + "\U{0}" + a.kind, b.to + "\U{0}" + b.kind;
    assert EdgeID()(a) == a.from + "\U{0}" + x && EdgeID()(b) == b.from + "\U{0}" + y;
    if EdgeID()(a) == EdgeID()(b) {
      CutIsUnique(a.from, b.from, x, y, '\U{0}');
      CutIsUnique(a.to, b.to, a.kind, b.kind, '\U{0}');
    }
  }

  /** Every key keeps one value. */
  lemma KeysAreKept<T>(out: seq<T>, xs: seq<T>, key: T -> string, order: T -> seq<string>)
    requires ListsLast(out, xs, key, order)
    ensures forall x | x in out :: x in xs
    ensures forall x | x in xs :: exists y | y in out :: key(y) == key(x)
    ensures forall x, y | x in out && y in out && key(x) == key(y) :: x == y
  {
    LastByHoldsLast(xs, key);
    forall x, y | x in out && y in out && key(x) == key(y) { LastIsUnique(xs, key, x, y); }
    forall x | x in xs
      ensures exists y | y in out :: key(y) == key(x)
    {
      var y := LastBy(xs, key)[key(x)];
      assert IsLast(xs, key, y) && key(y) == key(x);
      assert y in out;
    }
  }

  lemma KeptAreHeld(doc: Document, id: string)
    requires doc.baseGraph.Base?
    ensures var base, rest := doc.baseGraph.layer, Remaining(doc.expansions, id);
            && (forall e :: e in base.edges + Flat(rest, EdgesOf()) <==> HoldsEdge(doc, id, e))
            && forall n :: n in base.nodes + Flat(rest, NodesOf()) <==> HoldsNode(doc, id, n)
  {
    var rest := Remaining(doc.expansions, id);
    OtherLayersRemain(doc.expansions, id);
    FlatMembers(rest, EdgesOf());
    FlatMembers(rest, NodesOf());
    hide Remaining, Flat;
  }

  lemma NotesAreKept(doc: Document, id: string, note: string)
    requires doc.baseGraph.Base?
    ensures note in Flat(Remaining(doc.expansions, id), NotesOf()) <==>
      exists x | x in doc.expansions :: x.expandedFrom != id && note in x.layer.explanation
  {
    OtherLayersRemain(doc.expansions, id);
    FlatMembers(Remaining(doc.expansions, id), NotesOf());
    hide Remaining, Flat;
  }

  /** Its explanation holds the notes of the base and of the remaining layers, and ends with the collapse itself. */
  lemma CollapseKeepsTheNotes(doc: Document, id: string, out: Document, note: string)
    requires doc.baseGraph.Base? && IsCollapse(doc, id, out)
    ensures out.view.explanation != [] && out.view.explanation[|out.view.explanation| - 1] == "collapsed " + id
    ensures note in out.view.explanation <==>
      note in doc.baseGraph.layer.explanation || (exists x | x in doc.expansions :: x.expandedFrom != id && note in x.layer.explanation) || note == "collapsed " + id
  {
    NotesAreKept(doc, id, note);
    hide ListsLast, Remaining, Flat, CollectedAt;
  }

  lemma KeyLessOfOne(a: string, b: string)
    ensures KeyLess([a], [b]) <==> Less(a, b)
  {
    hide Less;
    assert [a][1..] == [] && [b][1..] == [];
  }

  /** The nodes of a collapsed view are in order of kind, namespace, name and identifier, its edges in order of their ends and kind. */
  lemma CollapseIsInOrder(doc: Document, id: string, out: Document)
    requires doc.baseGraph.Base? && IsCollapse(doc, id, out)
    ensures var ns := out.view.nodes;
            forall i, j | 0 <= i < j < |ns| :: !KeyLess([ns[j].kind, ns[j].namespace, ns[j].name, ns[j].canonicalID],
                                                        [ns[i].kind, ns[i].namespace, ns[i].name, ns[i].canonicalID])
    ensures var es := out.view.edges;
            forall i, j | 0 <= i < j < |es| :: !Less(es[j].from + "\U{0}" + es[j].to + "\U{0}" + es[j].kind, es[i].from + "\U{0}" + es[i].to + "\U{0}" + es[i].kind)
  {
    hide Less, Remaining, Flat, IsLast;
    var es := out.view.edges;
    forall i, j | 0 <= i < j < |es|
      ensures !Less(EdgeID()(es[j]), EdgeID()(es[i]))
    {
      assert !KeyLess(EdgeOrder()(es[j]), EdgeOrder()(es[i]));
      KeyLessOfOne(EdgeID()(es[j]), EdgeID()(es[i]));
    }
  }

  /** The time of a collapsed view is that of the last remaining layer that carries one, else the base's. */
  lemma {:induction false} TheLastTimeCounts(base: string, expansions: seq<Expansion>)
    ensures var t := CollectedAt(base, expansions);
            if forall x | x in expansions :: x.layer.collectedAt == "" then t == base
            else t != "" && exists i | 0 <= i < |expansions| ::
                   expansions[i].layer.collectedAt == t && forall j | i < j < |expansions| :: expansions[j].layer.collectedAt == ""
  {
    if expansions != [] {
      var init, last := expansions[..|expansions| - 1], expansions[|expansions| - 1];
      TheLastTimeCounts(base, init);
      assert expansions == init + [last];
      if last.layer.collectedAt == "" && exists x | x in init :: x.layer.collectedAt != "" {
        var t := CollectedAt(base, init);
        var i :| 0 <= i < |init| && init[i].layer.collectedAt == t && forall j | i < j < |init| :: init[j].layer.collectedAt == "";
        assert expansions[i] == init[i] && forall j | i < j < |expansions| :: expansions[j].layer.collectedAt == "";
      }
    }
  }

  /** The collapsed view shows each edge that the base or a remaining layer holds, once for its ends and kind, and no other; so with nodes. */
  lemma CollapseShowsTheRest(doc: Document, id: string, out: Document)
    requires doc.baseGraph.Base? && IsCollapse(doc, id, out)
    requires forall e | HoldsEdge(doc, id, e) :: '\U{0}' !in e.from && '\U{0}' !in e.to
    ensures forall e | HoldsEdge(doc, id, e) :: exists f | f in out.view.edges :: f.from == e.from && f.to == e.to && f.kind == e.kind
    ensures forall f | f in out.view.edges :: HoldsEdge(doc, id, f)
    ensures forall e, f | e in out.view.edges && f in out.view.edges && e.from == f.from && e.to == f.to && e.kind == f.kind :: e == f
    ensures forall n | HoldsNode(doc, id, n) :: exists m | m in out.view.nodes :: m.canonicalID == n.canonicalID
    ensures forall m | m in out.view.nodes :: HoldsNode(doc, id, m)
    ensures forall m, n | m in out.view.nodes && n in out.view.nodes && m.canonicalID == n.canonicalID :: m == n
  {
    hide ListsLast, Remaining, Flat, EdgeID, HoldsEdge, HoldsNode, LastBy, IsLast, CollectedAt;
    CollapseShowsTheNodes(doc, id, out);
    CollapseShowsTheEdges(doc, id, out);
  }

  lemma CollapseShowsTheNodes(doc: Document, id: string, out: Document)
    requires doc.baseGraph.Base? && IsCollapse(doc, id, out)
    ensures forall n | HoldsNode(doc, id, n) :: exists m | m in out.view.nodes :: m.canonicalID == n.canonicalID
    ensures forall m | m in out.view.nodes :: HoldsNode(doc, id, m)
    ensures forall m, n | m in out.view.nodes && n in out.view.nodes && m.canonicalID == n.canonicalID :: m == n
  {
    hide ListsLast, Remaining, Flat, HoldsNode, LastBy, IsLast, CollectedAt;
    var base, rest := doc.baseGraph.layer, Remaining(doc.expansions, id);
    KeptAreHeld(doc, id);
    KeysAreKept(out.view.nodes, base.nodes + Flat(rest, NodesOf()), NodeID(), NodeOrder());
  }

  lemma CollapseShowsTheEdges(doc: Document, id: string, out: Document)
    requires doc.baseGraph.Base? && IsCollapse(doc, id, out)
    requires forall e | HoldsEdge(doc, id, e) :: '\U{0}' !in e.from && '\U{0}' !in e.to
    ensures forall e | HoldsEdge(doc, id, e) :: exists f | f in out.view.edges :: f.from == e.from && f.to == e.to && f.kind == e.kind
    ensures forall f | f in out.view.edges :: HoldsEdge(doc, id, f)
    ensures forall e, f | e in out.view.edges && f in out.view.edges && e.from == f.from && e.to == f.to && e.kind == f.kind :: e == f
  {
    hide IsCollapse, HoldsEdge;
    forall e, f | e in out.view.edges && f in out.view.edges && e.from == f.from && e.to == f.to && e.kind == f.kind { EdgeIsOnce(doc, id, out, e, f); }
    forall f | f in out.view.edges { ShownIsHeld(doc, id, out, f); }
    forall e | HoldsEdge(doc, id, e) { EdgeIsShown(doc, id, out, e); }
  }

  lemma EdgeIsOnce(doc: Document, id: string, out: Document, e: DiagnosticEdge, f: DiagnosticEdge)
    requires doc.baseGraph.Base? && IsCollapse(doc, id, out)
    requires e in out.view.edges && f in out.view.edges && e.from == f.from && e.to == f.to && e.kind == f.kind
    ensures e == f
  {
    CollapseKeepsEdgeIDs(doc, id, out);
    hide IsCollapse, HoldsEdge;
    assert EdgeID()(e) == EdgeID()(f);
  }

  lemma ShownIsHeld(doc: Document, id: string, out: Document, f: DiagnosticEdge)
    requires doc.baseGraph.Base? && IsCollapse(doc, id, out) && f in out.view.edges
    ensures HoldsEdge(doc, id, f)
  {
    hide IsCollapse, HoldsEdge, EdgeID;
    CollapseKeepsEdgeIDs(doc, id, out);
  }

  lemma EdgeIsShown(doc: Document, id: string, out: Document, e: DiagnosticEdge)
    requires doc.baseGraph.Base? && IsCollapse(doc, id, out) && HoldsEdge(doc, id, e)
    requires forall e | HoldsEdge(doc, id, e) :: '\U{0}' !in e.from && '\U{0}' !in e.to
    ensures exists f | f in out.view.edges :: f.from == e.from && f.to == e.to && f.kind == e.kind
  {
    hide IsCollapse, HoldsEdge, EdgeID;
    CollapseKeepsEdgeIDs(doc, id, out);
    var f :| f in out.view.edges && EdgeID()(f) == EdgeID()(e);
    EdgeIDsTell(f, e);
  }

  lemma CollapseKeepsEdgeIDs(doc: Document, id: string, out: Document)
    requires doc.baseGraph.Base? && IsCollapse(doc, id, out)
    ensures forall e | HoldsEdge(doc, id, e) :: exists f | f in out.view.edges :: EdgeID()(f) == EdgeID()(e)
    ensures forall f | f in out.view.edges :: HoldsEdge(doc, id, f)
    ensures forall e, f | e in out.view.edges && f in out.view.edges && EdgeID()(e) == EdgeID()(f) :: e == f
  {
    hide ListsLast, Remaining, Flat, EdgeID, HoldsEdge, LastBy, IsLast, CollectedAt;
    var base, rest := doc.baseGraph.layer, Remaining(doc.expansions, id);
    KeptAreHeld(doc, id);
    KeysAreKept(out.view.edges, base.edges + Flat(rest, EdgesOf()), EdgeID(), EdgeOrder());
  }
}
