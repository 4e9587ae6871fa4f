/** Canonical identifiers: seven normalised fields joined by '/'. */
module Identity {
  import opened Strings

  /** Kubernetes names, UIDs and image references. None of them can hold a '|',
      the separator of edge keys. */
  type Text = s: string | '|' !in s

  type CanonicalID = Text

  datatype ResourceRef = ResourceRef(
    cluster: Text, group: Text, kind: Text, namespace: Text, name: Text, uid: Text, parentID: Text)

  function Normalize(v: Text): (r: Text)
    ensures '/' !in r && r != ""
    ensures '/' !in v && v != "" ==> r == v
  {
    if v == "" then "_" else seq(|v|, i requires 0 <= i < |v| => if v[i] == '/' then '_' else v[i])
  }

  function Fields(ref: ResourceRef): (parts: seq<Text>)
    ensures |parts| == 7
    ensures forall part | part in parts :: '/' !in part && '|' !in part
  {
    [Normalize(ref.cluster), Normalize(ref.group), Normalize(ref.kind), Normalize(ref.namespace),
     Normalize(ref.name), Normalize(ref.uid), Normalize(ref.parentID)]
  }

  lemma {:induction false} JoinAvoids(parts: seq<string>, separator: string, c: char)
    requires forall part | part in parts :: c !in part
    requires c !in separator
    ensures c !in Join(parts, separator)
  {
    if |parts| > 1 {
      JoinAvoids(parts[1..], separator, c);
    }
  }

  function NewCanonicalID(ref: ResourceRef): CanonicalID {
    JoinAvoids(Fields(ref), "/", '|');
    Join(Fields(ref), "/")
  }

  /** Two references share an identifier exactly when all seven normalised fields agree. */
  lemma SameIDIffSameFields(a: ResourceRef, b: ResourceRef)
    ensures NewCanonicalID(a) == NewCanonicalID(b) <==> Fields(a) == Fields(b)
  {
    if NewCanonicalID(a) == NewCanonicalID(b) {
      JoinIsInjective(Fields(a), Fields(b), '/');
    }
  }

  /** A field that normalisation keeps apart from every other such field. */
  predicate Plain(field: Text) {
    '/' !in field && field != "_"
  }

  predicate PlainRef(ref: ResourceRef) {
    Plain(ref.cluster) && Plain(ref.group) && Plain(ref.kind) && Plain(ref.namespace)
    && Plain(ref.name) && Plain(ref.uid) && Plain(ref.parentID)
  }

  lemma PlainFieldSurvives(a: Text, b: Text)
    requires Plain(a) && Plain(b) && Normalize(a) == Normalize(b)
    ensures a == b
  {
    if a == "" || b == "" {
      assert Normalize("") == "_";
    }
  }

  /** On plain references the identifier determines the whole reference. */
  lemma PlainIDsAreInjective(a: ResourceRef, b: ResourceRef)
    requires PlainRef(a) && PlainRef(b)
    requires NewCanonicalID(a) == NewCanonicalID(b)
    ensures a == b
  {
    var fa, fb := Fields(a), Fields(b);
    assert fa == fb by { SameIDIffSameFields(a, b); }
    assert fa[0] == fb[0] && fa[1] == fb[1] && fa[2] == fb[2] && fa[3] == fb[3];
    assert fa[4] == fb[4] && fa[5] == fb[5] && fa[6] == fb[6];
    PlainFieldSurvives(a.cluster, b.cluster);
    PlainFieldSurvives(a.group, b.group);
    PlainFieldSurvives(a.kind, b.kind);
    PlainFieldSurvives(a.namespace, b.namespace);
    PlainFieldSurvives(a.name, b.name);
    PlainFieldSurvives(a.uid, b.uid);
    PlainFieldSurvives(a.parentID, b.parentID);
  }

  /** Without plainness two references can share an identifier. */
  lemma SlashesCollide(ref: ResourceRef)
    ensures ref.(name := "a/b") != ref.(name := "a_b")
    ensures NewCanonicalID(ref.(name := "a/b")) == NewCanonicalID(ref.(name := "a_b"))
  {
    var slash: Text, bar: Text := "a/b", "a_b";
    assert slash[1] != bar[1];
    assert Normalize(slash) == Normalize(bar);
    assert Fields(ref.(name := slash)) == Fields(ref.(name := bar));
  }

  /** The n-th '/'-separated segment. */
  function Segment(id: string, n: nat): string {
    if id == "" then ""
    else if id[0] == '/' then (if n == 0 then "" else Segment(id[1..], n - 1))
    else if n == 0 then [id[0]] + Segment(id[1..], 0)
    else Segment(id[1..], n)
  }

  lemma {:induction false} SegmentSkips(a: string, x: string, n: nat)
    requires '/' !in a
    ensures Segment(a + "/" + x, n) == if n == 0 then a else Segment(x, n - 1)
  {
    if a == "" {
      assert a + "/" + x == "/" + x;
    } else {
      SegmentSkips(a[1..], x, n);
      assert (a + "/" + x)[1..] == a[1..] + "/" + x;
    }
  }

  /** The kind field of an identifier. */
  function KindTag(id: CanonicalID): string {
    Segment(id, 2)
  }

  lemma SegmentOfJoin(parts: seq<Text>, n: nat)
    requires n + 1 < |parts| && forall part | part in parts :: '/' !in part
    ensures Segment(Join(parts, "/"), n) == parts[n]
    decreases n
  {
    SegmentSkips(parts[0], Join(parts[1..], "/"), n);
    if n > 0 {
      assert forall part | part in parts[1..] :: part in parts;
      SegmentOfJoin(parts[1..], n - 1);
    }
  }

  lemma KindTagOfID(ref: ResourceRef)
    ensures KindTag(NewCanonicalID(ref)) == Normalize(ref.kind)
  {
    hide Normalize, Segment;
    SegmentOfJoin(Fields(ref), 2);
  }
}
