/** The sort package on lists ordered by a tuple of strings, and what makes its answer unique. */
module Sorting {
  import opened Strings

  /** Lexicographic order on tuples of strings. */
  predicate KeyLess(a: seq<string>, b: seq<string>) {
    if b == [] then false
    else if a == [] then true
    else Less(a[0], b[0]) || (a[0] == b[0] && KeyLess(a[1..], b[1..]))
  }

  lemma {:induction false} KeyLessIsTotal(a: seq<string>, b: seq<string>)
    ensures (KeyLess(a, b) && !KeyLess(b, a) && a != b) || (KeyLess(b, a) && !KeyLess(a, b) && a != b) || (a == b && !KeyLess(a, b))
  {
    if a != [] && b != [] {
      LessIsTotal(a[0], b[0]);
      KeyLessIsTotal(a[1..], b[1..]);
      assert a == [a[0]] + a[1..] && b == [b[0]] + b[1..];
    }
  }

  lemma {:induction false} KeyLessIsTransitive(a: seq<string>, b: seq<string>, c: seq<string>)
    requires KeyLess(a, b) && KeyLess(b, c)
    ensures KeyLess(a, c)
  {
    if a != [] {
      LessIsTotal(a[0], b[0]);
      LessIsTotal(b[0], c[0]);
      if a[0] == b[0] && b[0] == c[0] {
        KeyLessIsTransitive(a[1..], b[1..], c[1..]);
      } else if Less(a[0], b[0]) && Less(b[0], c[0]) {
        LessIsTransitive(a[0], b[0], c[0]);
      }
    }
  }

  ghost predicate Sorted<T>(xs: seq<T>, key: T -> seq<string>) {
    forall i, j | 0 <= i < j < |xs| :: !KeyLess(key(xs[j]), key(xs[i]))
  }

  /** Insertion after everything that is not larger, which keeps the sort stable. */
  function Insert<T>(xs: seq<T>, x: T, key: T -> seq<string>): seq<T> {
    if xs == [] then [x]
    else if KeyLess(key(x), key(xs[0])) then [x] + xs
    else [xs[0]] + Insert(xs[1..], x, key)
  }

  function SortBy<T>(xs: seq<T>, key: T -> seq<string>): seq<T> {
    if xs == [] then [] else Insert(SortBy(xs[..|xs| - 1], key), xs[|xs| - 1], key)
  }

  lemma {:induction false} InsertAdds<T>(xs: seq<T>, x: T, key: T -> seq<string>)
    ensures multiset(Insert(xs, x, key)) == multiset(xs) + multiset{x}
  {
    hide KeyLess;
    if xs != [] {
      assert xs == [xs[0]] + xs[1..];
      if !KeyLess(key(x), key(xs[0])) {
        InsertAdds(xs[1..], x, key);
      }
    }
  }

  /** Whatever was inserted is among the old elements or new. */
  lemma InsertedIsOldOrNew<T>(xs: seq<T>, x: T, key: T -> seq<string>, y: T)
    requires y in Insert(xs, x, key)
    ensures y == x || y in xs
  {
    InsertAdds(xs, x, key);
    hide Insert;
    assert y in multiset(Insert(xs, x, key));
    assert y in multiset(xs) || y == x;
  }

  lemma BelowTheHead<T>(xs: seq<T>, x: T, key: T -> seq<string>, j: nat)
    requires j < |xs| && Sorted(xs, key) && KeyLess(key(x), key(xs[0]))
    ensures !KeyLess(key(xs[j]), key(x))
  {
    hide KeyLess;
    KeyLessIsTotal(key(xs[j]), key(x));
    KeyLessIsTotal(key(xs[j]), key(xs[0]));
    if KeyLess(key(xs[j]), key(x)) {
      KeyLessIsTransitive(key(xs[j]), key(x), key(xs[0]));
    }
  }

  lemma {:induction false} InsertSorts<T>(xs: seq<T>, x: T, key: T -> seq<string>)
    requires Sorted(xs, key)
    ensures Sorted(Insert(xs, x, key), key)
  {
    hide KeyLess;
    if xs != [] {
      if KeyLess(key(x), key(xs[0])) {
        forall j | 0 <= j < |xs| { BelowTheHead(xs, x, key, j); }
      } else {
        var tail := Insert(xs[1..], x, key);
        InsertSorts(xs[1..], x, key);
        forall j | 0 <= j < |tail|
          ensures !KeyLess(key(tail[j]), key(xs[0]))
        {
          InsertedIsOldOrNew(xs[1..], x, key, tail[j]);
          if tail[j] != x {
            var i :| 0 <= i < |xs[1..]| && xs[1..][i] == tail[j];
            assert xs[i + 1] == tail[j];
          }
        }
      }
    }
  }

  /** Sorting permutes its input into order. */
  lemma {:induction false} SortKeeps<T>(xs: seq<T>, key: T -> seq<string>)
    ensures multiset(SortBy(xs, key)) == multiset(xs)
    ensures Sorted(SortBy(xs, key), key)
  {
    if xs != [] {
      SortKeeps(xs[..|xs| - 1], key);
      InsertAdds(SortBy(xs[..|xs| - 1], key), xs[|xs| - 1], key);
      InsertSorts(SortBy(xs[..|xs| - 1], key), xs[|xs| - 1], key);
      assert xs == xs[..|xs| - 1] + [xs[|xs| - 1]];
    }
  }

  lemma SameElements<T>(xs: seq<T>, ys: seq<T>)
    requires multiset(xs) == multiset(ys)
    ensures |xs| == |ys| && forall x :: x in xs <==> x in ys
  {
    assert |multiset(xs)| == |multiset(ys)|;
    forall x
      ensures x in xs <==> x in ys
    {
      assert x in xs <==> x in multiset(xs);
      assert x in ys <==> x in multiset(ys);
    }
  }

  lemma HeadsAgree<T>(xs: seq<T>, ys: seq<T>, key: T -> seq<string>)
    requires xs != [] && multiset(xs) == multiset(ys) && Sorted(xs, key) && Sorted(ys, key)
    requires forall x, y | x in xs && y in xs && key(x) == key(y) :: x == y
    ensures ys != [] && xs[0] == ys[0]
  {
    hide KeyLess;
    SameElements(xs, ys);
    assert xs[0] in ys && ys[0] in xs;
    var i :| 0 <= i < |ys| && ys[i] == xs[0];
    var j :| 0 <= j < |xs| && xs[j] == ys[0];
    KeyLessIsTotal(key(xs[0]), key(ys[0]));
  }

  lemma TailCounts<T>(xs: seq<T>)
    requires xs != []
    ensures multiset(xs[1..]) == multiset(xs) - multiset{xs[0]}
  {
    assert xs == [xs[0]] + xs[1..];
  }

  /** Two sorted arrangements of the same elements agree when the key tells the elements apart. */
  lemma {:induction false} SortedIsUnique<T>(xs: seq<T>, ys: seq<T>, key: T -> seq<string>)
    requires multiset(xs) == multiset(ys) && Sorted(xs, key) && Sorted(ys, key)
    requires forall x, y | x in xs && y in xs && key(x) == key(y) :: x == y
    ensures xs == ys
  {
    hide KeyLess;
    if xs == [] {
      assert |multiset(ys)| == 0;
    } else {
      HeadsAgree(xs, ys, key);
      TailCounts(xs);
      TailCounts(ys);
      SortedIsUnique(xs[1..], ys[1..], key);
      assert xs == [xs[0]] + xs[1..] && ys == [ys[0]] + ys[1..];
    }
  }

  /** Sorting forgets the order of its input. */
  lemma SortForgetsOrder<T>(xs: seq<T>, ys: seq<T>, key: T -> seq<string>)
    requires multiset(xs) == multiset(ys)
    requires forall x, y | x in xs && y in xs && key(x) == key(y) :: x == y
    ensures SortBy(xs, key) == SortBy(ys, key)
  {
    hide SortBy, Sorted;
    SortKeeps(xs, key);
    SortKeeps(ys, key);
    var sorted := SortBy(xs, key);
    SameElements(xs, sorted);
    forall x, y | x in sorted && y in sorted && key(x) == key(y)
      ensures x == y
    {
      assert x in multiset(sorted) && y in multiset(sorted);
      assert x in xs && y in xs;
    }
    SortedIsUnique(sorted, SortBy(ys, key), key);
  }

  /** sort.Strings. */
  function SortStrings(xs: seq<string>): seq<string> {
    SortBy(xs, (x: string) => [x])
  }

  lemma SortStringsForgetsOrder(xs: seq<string>, ys: seq<string>)
    requires multiset(xs) == multiset(ys)
    ensures SortStrings(xs) == SortStrings(ys)
  {
    var key := (x: string) => [x];
    assert forall x, y: string | key(x) == key(y) :: key(x)[0] == key(y)[0];
    SortForgetsOrder(xs, ys, key);
  }

  predicate Distinct<T(==)>(xs: seq<T>) {
    forall i, j | 0 <= i < j < |xs| :: xs[i] != xs[j]
  }

  /** Duplicate-free lists with the same elements are permutations of each other. */
  lemma {:induction false} DistinctListsPermute<T>(xs: seq<T>, ys: seq<T>)
    requires Distinct(xs) && Distinct(ys)
    requires forall x :: x in xs <==> x in ys
    ensures multiset(xs) == multiset(ys)
  {
    DistinctCountsOnce(xs);
    DistinctCountsOnce(ys);
  }

  lemma {:induction false} DistinctCountsOnce<T>(xs: seq<T>)
    requires Distinct(xs)
    ensures forall x :: multiset(xs)[x] == if x in xs then 1 else 0
  {
    if xs != [] {
      var init, last := xs[..|xs| - 1], xs[|xs| - 1];
      DistinctCountsOnce(init);
      assert xs == init + [last];
      assert last !in init;
    }
  }

  lemma RepeatsCountTwice<T>(ys: seq<T>, i: nat, j: nat)
    requires i < j < |ys| && ys[i] == ys[j]
    ensures multiset(ys)[ys[i]] >= 2
  {
    assert ys == ys[..i] + [ys[i]] + ys[i + 1..j] + [ys[j]] + ys[j + 1..];
  }

  /** A permutation of a duplicate-free list is duplicate-free. */
  lemma DistinctSurvives<T>(xs: seq<T>, ys: seq<T>)
    requires Distinct(xs) && multiset(xs) == multiset(ys)
    ensures Distinct(ys)
  {
    DistinctCountsOnce(xs);
    SameElements(xs, ys);
    forall i, j | 0 <= i < j < |ys|
      ensures ys[i] != ys[j]
    {
      if ys[i] == ys[j] { RepeatsCountTwice(ys, i, j); }
    }
  }

  /** Strictly increasing. */
  ghost predicate Ascending(xs: seq<string>) {
    forall i, j | 0 <= i < j < |xs| :: Less(xs[i], xs[j])
  }

  /** Sorting a duplicate-free list of strings puts it in strictly increasing order. */
  lemma SortedStringsAscend(xs: seq<string>)
    requires Distinct(xs)
    ensures Ascending(SortStrings(xs)) && multiset(SortStrings(xs)) == multiset(xs)
  {
    var key := (x: string) => [x];
    var out := SortStrings(xs);
    SortKeeps(xs, key);
    DistinctSurvives(xs, out);
    forall i, j | 0 <= i < j < |out|
      ensures Less(out[i], out[j])
    {
      assert !KeyLess(key(out[j]), key(out[i]));
      LessIsTotal(out[i], out[j]);
    }
  }

  /** The elements of a set in sorted order. */
  method SortedElements(elements: set<string>) returns (keys: seq<string>)
    ensures Ascending(keys) && |keys| == |elements| && forall k :: k in keys <==> k in elements
  {
    var listed: seq<string> := [];
    var rest := elements;
    while rest != {}
      invariant rest <= elements && Distinct(listed) && |listed| + |rest| == |elements|
      invariant forall k :: k in listed <==> k in elements && k !in rest
    {
      var k :| k in rest;
      listed, rest := listed + [k], rest - {k};
    }
    SortedStringsAscend(listed);
    keys := SortStrings(listed);
    SameElements(listed, keys);
  }
}
