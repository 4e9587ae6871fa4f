/** The fingerprints inside a category's joined text, for categories of one kind, of several, and for grouped workloads. */
module WatchedPieces {
  import opened Sorting
  import opened GraphModel
  import opened SnapshotOrder
  import opened Fingerprints
  import opened Splitting

  // ---- Lists of lists ----

  lemma {:induction false} FlatOfFlat<A, B, C>(xs: seq<A>, f: A -> seq<B>, g: B -> seq<C>, h: A -> seq<C>)
    requires forall x | x in xs :: Flat(f(x), g) == h(x)
    ensures Flat(Flat(xs, f), g) == Flat(xs, h)
  {
    if xs != [] {
      FlatOfFlat(xs[..|xs| - 1], f, g, h);
      FlatAppend(Flat(xs[..|xs| - 1], f), f(xs[|xs| - 1]), g);
    }
  }

  lemma {:induction false} FlatMultisets<A, B>(xs: seq<A>, f: A -> seq<B>, g: A -> seq<B>)
    requires forall x | x in xs :: multiset(f(x)) == multiset(g(x))
    ensures multiset(Flat(xs, f)) == multiset(Flat(xs, g))
  {
    if xs != [] {
      FlatMultisets(xs[..|xs| - 1], f, g);
      assert xs[|xs| - 1] in xs;
    }
  }

  // ---- Grouped contributions ----

  function PrintF(): Contribution -> seq<string> { (c: Contribution) => [c.fingerprint] }

  function AtF(cs: seq<Contribution>): string -> seq<string> { (key: string) => At(cs, key) }

  lemma {:induction false} OneMoreAt(keys: seq<string>, init: seq<Contribution>, c: Contribution)
    requires Distinct(keys)
    ensures multiset(Flat(keys, AtF(init + [c]))) == multiset(Flat(keys, AtF(init))) + if c.key in keys then multiset{c.fingerprint} else multiset{}
  {
    if keys != [] {
      var rest, key := keys[..|keys| - 1], keys[|keys| - 1];
      assert Distinct(rest) && key !in rest && keys == rest + [key];
      OneMoreAt(rest, init, c);
      assert (init + [c])[..|init|] == init;
    }
  }

  lemma {:induction false} NothingAt(keys: seq<string>)
    ensures Flat(keys, AtF([])) == []
  {
    if keys != [] {
      NothingAt(keys[..|keys| - 1]);
    }
  }

  /** Grouping by key loses and adds nothing. */
  lemma {:induction false} GroupsHoldAll(keys: seq<string>, cs: seq<Contribution>)
    requires Distinct(keys) && forall c | c in cs :: c.key in keys
    ensures multiset(Flat(keys, AtF(cs))) == multiset(Flat(cs, PrintF()))
  {
    if cs == [] {
      NothingAt(keys);
    } else {
      var init, c := cs[..|cs| - 1], cs[|cs| - 1];
      assert cs == init + [c];
      GroupsHoldAll(keys, init);
      OneMoreAt(keys, init, c);
    }
  }

  function GroupKeys(cs: seq<Contribution>): seq<string> { SortBy(InOrder(KeysOf(cs)), CutKey()) }

  lemma SortedStaysDistinct(xs: seq<string>, key: string -> seq<string>)
    requires Distinct(xs)
    ensures Distinct(SortBy(xs, key)) && forall x :: x in xs <==> x in SortBy(xs, key)
  {
    SortKeeps(xs, key);
    hide SortBy, Sorted, Distinct;
    DistinctSurvives(xs, SortBy(xs, key));
    SameElements(xs, SortBy(xs, key));
  }

  lemma KeyIsGrouped(cs: seq<Contribution>, c: Contribution)
    requires c in cs
    ensures c.key in GroupKeys(cs)
  {
    assert c.key in KeysOf(cs);
    InOrderLists(KeysOf(cs));
    hide KeysOf, InOrder, SortBy, Ascending;
    var ks := InOrder(KeysOf(cs));
    assert c.key in ks;
    SortKeeps(ks, CutKey());
    SameElements(ks, GroupKeys(cs));
  }

  lemma GroupKeysAreDistinct(cs: seq<Contribution>)
    ensures Distinct(GroupKeys(cs))
  {
    InOrderLists(KeysOf(cs));
    hide InOrder, SortBy, Distinct, Ascending, Sorted, KeysOf;
    AscendingIsSorted(InOrder(KeysOf(cs)));
    SortedStaysDistinct(InOrder(KeysOf(cs)), CutKey());
  }

  lemma {:induction false} AtMembers(cs: seq<Contribution>, key: string)
    ensures forall f | f in At(cs, key) :: exists c | c in cs :: c.fingerprint == f
  {
    if cs != [] {
      AtMembers(cs[..|cs| - 1], key);
      assert cs == cs[..|cs| - 1] + [cs[|cs| - 1]];
    }
  }

  function GroupTextF(cs: seq<Contribution>): string -> seq<string> { (key: string) => [SortedJoin(At(cs, key), "|")] }
  function GroupPiecesF(cs: seq<Contribution>): string -> seq<string> { (key: string) => Pieces(SortedJoin(At(cs, key), "|"), '|') }

  lemma GroupText(cs: seq<Contribution>, key: string)
    ensures Flat(GroupF(cs)(key), FingerprintF()) == GroupTextF(cs)(key)
  {
    hide Flat, SortedJoin, At, Cut;
    OneFlat(Ref(Cut(key).0, Cut(key).1, SortedJoin(At(cs, key), "|")), FingerprintF());
  }

  lemma GroupPieces(cs: seq<Contribution>, key: string)
    ensures Flat(GroupTextF(cs)(key), PiecesF('|')) == GroupPiecesF(cs)(key)
  {
    hide Flat, SortedJoin, Pieces, At;
    OneFlat(SortedJoin(At(cs, key), "|"), PiecesF('|'));
  }

  lemma GroupTexts(cs: seq<Contribution>)
    ensures Flat(GroupedRefs(cs), FingerprintF()) == Flat(GroupKeys(cs), GroupTextF(cs))
    ensures Flat(Flat(GroupKeys(cs), GroupTextF(cs)), PiecesF('|')) == Flat(GroupKeys(cs), GroupPiecesF(cs))
  {
    forall key
      ensures Flat(GroupF(cs)(key), FingerprintF()) == GroupTextF(cs)(key)
      ensures Flat(GroupTextF(cs)(key), PiecesF('|')) == GroupPiecesF(cs)(key)
    {
      GroupText(cs, key);
      GroupPieces(cs, key);
    }
    hide Flat, GroupF, GroupTextF, GroupPiecesF, FingerprintF, PiecesF, SortBy, InOrder, KeysOf;
    FlatOfFlat(GroupKeys(cs), GroupF(cs), FingerprintF(), GroupTextF(cs));
    FlatOfFlat(GroupKeys(cs), GroupTextF(cs), PiecesF('|'), GroupPiecesF(cs));
  }

  lemma GroupPiecesAreAt(cs: seq<Contribution>, key: string)
    requires forall c | c in cs :: Whole(c.fingerprint, '|')
    ensures multiset(GroupPiecesF(cs)(key)) == multiset(AtF(cs)(key))
  {
    AtMembers(cs, key);
    hide Flat, SortedJoin, Pieces, Whole, At;
    PiecesOfSortedJoin(At(cs, key), '|');
    WholePieces(At(cs, key), '|');
  }

  /** The joined text of the grouped references holds the contributions' fingerprints. */
  lemma GroupedPieces(cs: seq<Contribution>)
    requires forall c | c in cs :: Whole(c.fingerprint, '|')
    ensures multiset(Pieces(SortedJoin(Flat(GroupedRefs(cs), FingerprintF()), "|"), '|')) == multiset(Flat(cs, PrintF()))
  {
    hide Flat, SortedJoin, Pieces, Whole, GroupPiecesF, AtF, GroupTextF, PrintF, FingerprintF, PiecesF, GroupedRefs, GroupKeys, Distinct;
    GroupTexts(cs);
    PiecesOfSortedJoin(Flat(GroupedRefs(cs), FingerprintF()), '|');
    forall key { GroupPiecesAreAt(cs, key); }
    FlatMultisets(GroupKeys(cs), GroupPiecesF(cs), AtF(cs));
    GroupKeysAreDistinct(cs);
    forall c | c in cs { KeyIsGrouped(cs, c); }
    GroupsHoldAll(GroupKeys(cs), cs);
  }

  // ---- Parts told apart ----

  /** Parts told apart by a property of their elements agree when the wholes do. */
  lemma SameParts(a: multiset<string>, r: multiset<string>, b: multiset<string>, q: multiset<string>, mark: string -> bool)
    requires a + r == b + q && (forall f | f in a || f in b :: mark(f)) && forall f | f in r || f in q :: !mark(f)
    ensures a == b && r == q
  {
    forall f
      ensures a[f] == b[f]
    {
      assert (a + r)[f] == (b + q)[f];
      if mark(f) {
        assert r[f] == 0 && q[f] == 0;
      } else {
        assert a[f] == 0 && b[f] == 0;
      }
    }
    assert a == b;
    forall f
      ensures r[f] == q[f]
    {
      assert (a + r)[f] == (b + q)[f];
    }
  }
}
