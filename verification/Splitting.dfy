/** Reading joined strings back: pieces between separators, fields from either end, and decimals. */
module Splitting {
  import opened Strings
  import opened Sorting
  import opened GraphModel
  import opened SnapshotOrder
  import opened Fingerprints

  // ---- Pieces between separators, the empty ones dropped ----

  /** Up to the first separator. */
  function Head(s: string, c: char): (h: string)
    ensures |h| <= |s| && c !in h && h == s[..|h|] && (|h| < |s| ==> s[|h|] == c)
  {
    if s == "" || s[0] == c then "" else [s[0]] + Head(s[1..], c)
  }

  lemma {:induction false} HeadStops(a: string, t: string, c: char)
    requires c !in a
    ensures Head(a, c) == a && Head(a + [c] + t, c) == a
  {
    if a == "" {
      assert a + [c] + t == [c] + t;
    } else {
      HeadStops(a[1..], t, c);
      assert (a + [c] + t)[1..] == a[1..] + [c] + t;
    }
  }

  function Pieces(s: string, c: char): seq<string> {
    var h := Head(s, c);
    (if h == "" then [] else [h]) + if |h| == |s| then [] else Pieces(s[|h| + 1..], c)
  }

  lemma HeadOfMore(a: string, t: string, c: char)
    requires |Head(a, c)| < |a|
    ensures var s, h := a + [c] + t, Head(a, c);
            Head(s, c) == h && |h| < |s| && s[|h| + 1..] == a[|h| + 1..] + [c] + t
  {
    var h := Head(a, c);
    hide Head;
    var rest := a[|h| + 1..];
    assert a == h + [c] + rest;
    var more := rest + [c] + t;
    assert a + [c] + t == h + [c] + more;
    HeadStops(h, more, c);
    assert (h + [c] + more)[|h| + 1..] == more;
  }

  lemma PiecesStep(s: string, c: char)
    ensures var h := Head(s, c);
            Pieces(s, c) == (if h == "" then [] else [h]) + if |h| == |s| then [] else Pieces(s[|h| + 1..], c)
  {
  }

  lemma {:induction false} PiecesAppend(a: string, t: string, c: char)
    ensures Pieces(a + [c] + t, c) == Pieces(a, c) + Pieces(t, c)
    decreases |a|
  {
    hide Head, Pieces;
    var s, h := a + [c] + t, Head(a, c);
    PiecesStep(s, c);
    PiecesStep(a, c);
    if |h| == |a| {
      HeadStops(a, t, c);
      assert s[|a| + 1..] == t;
    } else {
      HeadOfMore(a, t, c);
      PiecesAppend(a[|h| + 1..], t, c);
    }
  }

  function PiecesF(c: char): string -> seq<string> { (s: string) => Pieces(s, c) }

  /** The pieces of a joined list are the pieces of its elements. */
  lemma {:induction false} PiecesOfJoin(xs: seq<string>, c: char)
    ensures Pieces(Join(xs, [c]), c) == Flat(xs, PiecesF(c))
  {
    hide Flat, Pieces;
    if xs == [] {
      NoPieces(c);
    } else if |xs| == 1 {
      OneFlat(xs[0], PiecesF(c));
      assert xs == [xs[0]];
    } else {
      PiecesAppend(xs[0], Join(xs[1..], [c]), c);
      PiecesOfJoin(xs[1..], c);
      OneFlat(xs[0], PiecesF(c));
      FlatAppend([xs[0]], xs[1..], PiecesF(c));
      assert xs == [xs[0]] + xs[1..];
    }
  }

  lemma NoPieces(c: char)
    ensures Pieces("", c) == [] && Join([], [c]) == "" && Flat<string, string>([], PiecesF(c)) == []
  {
  }

  /** Not split, and not dropped. */
  predicate Whole(s: string, c: char) { s != "" && c !in s }

  lemma WholePiece(s: string, c: char)
    requires Whole(s, c)
    ensures Pieces(s, c) == [s]
  {
    hide Head;
    HeadStops(s, "", c);
  }

  lemma {:induction false} WholePieces(xs: seq<string>, c: char)
    requires forall x | x in xs :: Whole(x, c)
    ensures Flat(xs, PiecesF(c)) == xs
  {
    hide Pieces, Whole;
    if xs != [] {
      WholePieces(xs[..|xs| - 1], c);
      assert Whole(xs[|xs| - 1], c);
      WholePiece(xs[|xs| - 1], c);
    }
  }

  lemma PiecesOfSortedJoin(xs: seq<string>, c: char)
    ensures multiset(Pieces(SortedJoin(xs, [c]), c)) == multiset(Flat(xs, PiecesF(c)))
  {
    hide Pieces, Flat, Join;
    SortKeeps(xs, (x: string) => [x]);
    PiecesOfJoin(SortStrings(xs), c);
    PermutedFlat(SortStrings(xs), xs, PiecesF(c));
  }

  /** A sorted, joined list tells what was in it. */
  lemma SortedJoinTells(xs: seq<string>, ys: seq<string>, c: char)
    requires SortedJoin(xs, [c]) == SortedJoin(ys, [c])
    requires (forall x | x in xs :: Whole(x, c)) && forall y | y in ys :: Whole(y, c)
    ensures multiset(xs) == multiset(ys)
  {
    PiecesOfSortedJoin(xs, c);
    PiecesOfSortedJoin(ys, c);
    WholePieces(xs, c);
    WholePieces(ys, c);
  }

  // ---- Fields between slashes ----

  lemma {:induction false} JoinSplits(a: seq<string>, b: seq<string>)
    requires a != [] && b != []
    ensures Join(a + b, "/") == Join(a, "/") + "/" + Join(b, "/")
  {
    if |a| == 1 {
      assert (a + b)[1..] == b;
    } else {
      JoinSplits(a[1..], b);
      assert (a + b)[1..] == a[1..] + b;
    }
  }

  ghost predicate Slashless(fields: seq<string>) {
    forall f | f in fields :: '/' !in f
  }

  /** Fields free of slashes can be read off the front of a joined list. */
  lemma {:induction false} LeftFields(a: seq<string>, b: seq<string>, n: nat)
    requires n < |a| && n < |b| && Slashless(a[..n]) && Slashless(b[..n]) && Join(a, "/") == Join(b, "/")
    ensures a[..n] == b[..n] && Join(a[n..], "/") == Join(b[n..], "/")
  {
    if n == 0 {
      assert a[0..] == a && b[0..] == b;
    } else {
      assert a[0] in a[..n] && b[0] in b[..n];
      CutIsUnique(a[0], b[0], Join(a[1..], "/"), Join(b[1..], "/"), '/');
      assert a[1..][..n - 1] == a[..n][1..] && b[1..][..n - 1] == b[..n][1..];
      LeftFields(a[1..], b[1..], n - 1);
      assert a[..n] == [a[0]] + a[1..][..n - 1] && b[..n] == [b[0]] + b[1..][..n - 1];
      assert a[1..][n - 1..] == a[n..] && b[1..][n - 1..] == b[n..];
    }
  }

  lemma LastField(a: seq<string>, x: string, b: seq<string>, y: string)
    requires a != [] && b != [] && '/' !in x && '/' !in y && Join(a + [x], "/") == Join(b + [y], "/")
    ensures x == y && Join(a, "/") == Join(b, "/")
  {
    JoinSplits(a, [x]);
    JoinSplits(b, [y]);
    assert Join([x], "/") == x && Join([y], "/") == y;
    hide Join;
    CutLastIsUnique(Join(a, "/"), Join(b, "/"), x, y, '/');
  }

  /** And off the end. */
  lemma {:induction false} RightFields(a: seq<string>, r: seq<string>, b: seq<string>, q: seq<string>)
    requires a != [] && b != [] && |r| == |q| && Slashless(r) && Slashless(q) && Join(a + r, "/") == Join(b + q, "/")
    ensures r == q && Join(a, "/") == Join(b, "/")
  {
    hide Join;
    if r == [] {
      assert a + r == a && b + q == b;
    } else {
      var n := |r| - 1;
      assert a + r == (a + r[..n]) + [r[n]] && b + q == (b + q[..n]) + [q[n]];
      LastField(a + r[..n], r[n], b + q[..n], q[n]);
      RightFields(a, r[..n], b, q[..n]);
      assert r == r[..n] + [r[n]] && q == q[..n] + [q[n]];
    }
  }

  // ---- Decimals ----

  predicate IsDigit(c: char) { '0' <= c <= '9' }

  function Value(s: string): int {
    if s == "" then 0 else Value(s[..|s| - 1]) * 10 + (s[|s| - 1] as int - '0' as int)
  }

  lemma {:induction false} DigitsRead(n: nat)
    ensures Value(Digits(n)) == n && Digits(n) != "" && forall c | c in Digits(n) :: IsDigit(c)
  {
    if n < 10 {
      assert Digits(n)[..0] == "";
    } else {
      DigitsRead(n / 10);
      assert Digits(n)[..|Digits(n)| - 1] == Digits(n / 10);
    }
  }

  lemma DecimalTells(m: int, n: int)
    requires Decimal(m) == Decimal(n)
    ensures m == n
  {
    DigitsRead(if m < 0 then -m else m);
    DigitsRead(if n < 0 then -n else n);
    hide Digits, Value;
    assert m < 0 ==> Decimal(m)[0] == '-' && Decimal(m)[1..] == Digits(-m);
    assert n < 0 ==> Decimal(n)[0] == '-' && Decimal(n)[1..] == Digits(-n);
    assert m >= 0 ==> Decimal(m)[0] in Digits(m);
    assert n >= 0 ==> Decimal(n)[0] in Digits(n);
  }

  /** As UIDs are: a dash beyond the first character. */
  predicate LikeUID(s: string) { exists i | 0 < i < |s| :: s[i] == '-' }

  lemma DecimalsAreNoUIDs(n: int)
    ensures !LikeUID(Decimal(n)) && forall c | c in Decimal(n) :: IsDigit(c) || c == '-'
  {
    DigitsRead(if n < 0 then -n else n);
    hide Digits;
    var s, d := Decimal(n), Digits(if n < 0 then -n else n);
    forall i | 0 < i < |s|
      ensures s[i] != '-'
    {
      assert s[i] in d;
    }
  }

  // ---- Lists told by what they contribute ----

  lemma ContributorIn<A>(xs: seq<A>, ys: seq<A>, f: A -> seq<string>, b: string) returns (i: nat)
    requires ys != [] && f(ys[|ys| - 1]) == [b] && multiset(Flat(xs, f)) == multiset(Flat(ys, f)) && forall x | x in xs :: |f(x)| == 1
    ensures i < |xs| && f(xs[i]) == [b]
  {
    FlatMembers(ys, f);
    FlatMembers(xs, f);
    hide Flat;
    assert ys[|ys| - 1] in ys && b in f(ys[|ys| - 1]);
    assert b in Flat(ys, f);
    SameElements(Flat(xs, f), Flat(ys, f));
    var x :| x in xs && b in f(x);
    assert f(x) == [f(x)[0]];
    i :| 0 <= i < |xs| && xs[i] == x;
  }

  /** What the last element contributes comes from some element of the other list. */
  lemma Contributor<A>(xs: seq<A>, ys: seq<A>, f: A -> seq<string>) returns (i: nat)
    requires ys != [] && multiset(Flat(xs, f)) == multiset(Flat(ys, f))
    requires (forall x | x in xs :: |f(x)| == 1) && forall y | y in ys :: |f(y)| == 1
    ensures i < |xs| && f(xs[i]) == f(ys[|ys| - 1])
    ensures multiset(Flat(xs[..i] + xs[i + 1..], f)) == multiset(Flat(ys[..|ys| - 1], f))
  {
    hide Flat;
    var last := |ys| - 1;
    var b := f(ys[last])[0];
    assert f(ys[last]) == [b];
    i := ContributorIn(xs, ys, f, b);
    FlatTakenOut(ys, last, f);
    FlatTakenOut(xs, i, f);
    assert ys[..last] + ys[last + 1..] == ys[..last];
    Cancel(multiset(Flat(xs[..i] + xs[i + 1..], f)), multiset(Flat(ys[..last], f)), multiset([b]));
  }

  lemma PutBack<A>(xs: seq<A>, i: nat, zs: seq<A>)
    requires i < |xs| && multiset(zs) == multiset(xs[..i] + xs[i + 1..])
    ensures multiset(zs + [xs[i]]) == multiset(xs)
  {
    TakenOut(xs, i);
    assert xs[i] in xs && xs[i] in multiset(xs);
  }

  lemma PairsAppend<A(!new)>(zs: seq<A>, ys: seq<A>, x: A, same: (A, A) -> bool)
    requires |ys| == |zs| + 1 && same(x, ys[|ys| - 1]) && forall j | 0 <= j < |zs| :: same(zs[j], ys[..|ys| - 1][j])
    ensures forall j | 0 <= j < |ys| :: same((zs + [x])[j], ys[j])
  {
    forall j | 0 <= j < |ys|
      ensures same((zs + [x])[j], ys[j])
    {
      if j < |zs| {
        assert ys[..|ys| - 1][j] == ys[j];
      }
    }
  }

  lemma ReorderedMore<A(!new)>(xs: seq<A>, i: nat, ys: seq<A>, same: (A, A) -> bool)
    requires i < |xs| && ys != [] && Reordered(xs[..i] + xs[i + 1..], ys[..|ys| - 1], same) && same(xs[i], ys[|ys| - 1])
    ensures Reordered(xs, ys, same)
  {
    var rest, init := xs[..i] + xs[i + 1..], ys[..|ys| - 1];
    var zs :| multiset(zs) == multiset(rest) && |zs| == |init| && forall j | 0 <= j < |init| :: same(zs[j], init[j]);
    PutBack(xs, i, zs);
    PairsAppend(zs, ys, xs[i], same);
    hide Reordered;
    ReorderedBy(xs, zs + [xs[i]], ys, same);
  }

  lemma ReorderedBy<A(!new)>(xs: seq<A>, zs: seq<A>, ys: seq<A>, same: (A, A) -> bool)
    requires multiset(zs) == multiset(xs) && |zs| == |ys| && forall i | 0 <= i < |ys| :: same(zs[i], ys[i])
    ensures Reordered(xs, ys, same)
  {
  }

  /** Lists that contribute the same, one string an element, are reorderings as far as those strings tell. */
  lemma {:induction false} ToldByContributions<A(!new)>(xs: seq<A>, ys: seq<A>, f: A -> seq<string>, same: (A, A) -> bool)
    requires multiset(Flat(xs, f)) == multiset(Flat(ys, f))
    requires (forall x | x in xs :: |f(x)| == 1) && forall y | y in ys :: |f(y)| == 1
    requires forall x, y | x in xs && y in ys && f(x) == f(y) :: same(x, y)
    ensures Reordered(xs, ys, same)
    decreases |ys|
  {
    hide Flat;
    if ys == [] {
      FlatSize(xs, f);
      FlatSize(ys, f);
      assert |multiset(Flat(xs, f))| == |multiset(Flat(ys, f))|;
      assert multiset(ys) == multiset(xs);
    } else {
      hide Reordered;
      var i := Contributor(xs, ys, f);
      var rest := xs[..i] + xs[i + 1..];
      assert forall z | z in rest :: z in xs;
      ToldByContributions(rest, ys[..|ys| - 1], f, same);
      ReorderedMore(xs, i, ys, same);
    }
  }

  lemma {:induction false} FlatSize<A>(xs: seq<A>, f: A -> seq<string>)
    requires forall x | x in xs :: |f(x)| == 1
    ensures |Flat(xs, f)| == |xs|
  {
    if xs != [] {
      FlatSize(xs[..|xs| - 1], f);
      assert xs[|xs| - 1] in xs;
    }
  }

  lemma Cancel<B>(a: multiset<B>, b: multiset<B>, c: multiset<B>)
    requires a + c == b + c
    ensures a == b
  {
    assert (a + c) - c == a && (b + c) - c == b;
  }

  lemma EqualElements<A(!new)>(xs: seq<A>, ys: seq<A>)
    requires Reordered(xs, ys, (x: A, y: A) => x == y)
    ensures multiset(xs) == multiset(ys)
  {
    var zs :| multiset(zs) == multiset(xs) && |zs| == |ys| && forall i | 0 <= i < |ys| :: zs[i] == ys[i];
    assert zs == ys;
  }
}
