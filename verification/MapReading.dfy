/** What the fingerprint of a string map tells, alone and in front of more text. */
module MapReading {
  import opened Identity
  import opened Strings
  import opened Sorting
  import opened GraphModel
  import opened Resources
  import opened Fingerprints
  import opened Splitting

  /** Free of the separators between fingerprints and between categories. */
  predicate Fit(s: string) { '|' !in s && '\U{0}' !in s }

  lemma FitJoin(parts: seq<string>, separator: string)
    requires (forall p | p in parts :: Fit(p)) && Fit(separator)
    ensures Fit(Join(parts, separator))
  {
    JoinAvoids(parts, separator, '|');
    JoinAvoids(parts, separator, '\U{0}');
  }

  lemma FitSortedJoin(parts: seq<string>, separator: string)
    requires (forall p | p in parts :: Fit(p)) && Fit(separator)
    ensures Fit(SortedJoin(parts, separator))
  {
    hide Join;
    SortKeeps(parts, (x: string) => [x]);
    SameElements(parts, SortStrings(parts));
    FitJoin(SortStrings(parts), separator);
  }

  // ---- Maps ----

  /** A map whose pairs can be read back: nothing but a value holds a '=', and neither keys nor values hold a ','. */
  predicate ReadableMap(m: Labels) {
    forall k | k in m :: '=' !in k && ',' !in k && ',' !in m[k] && Fit(k) && Fit(m[k])
  }

  function Pair(k: string, v: string): string { k + "=" + v }

  lemma PairTells(k1: string, v1: string, k2: string, v2: string)
    requires '=' !in k1 && '=' !in k2 && Pair(k1, v1) == Pair(k2, v2)
    ensures k1 == k2 && v1 == v2
  {
    CutIsUnique(k1, k2, v1, v2, '=');
  }

  lemma {:induction false} PairsAre(m: Labels, keys: seq<string>)
    requires forall k | k in keys :: k in m
    ensures |Pairs(m, keys)| == |keys| && forall i | 0 <= i < |keys| :: Pairs(m, keys)[i] == Pair(keys[i], m[keys[i]])
  {
    if keys != [] {
      PairsAre(m, keys[..|keys| - 1]);
    }
  }

  lemma PairsOf(m: Labels)
    ensures (forall k | k in InOrder(m.Keys) :: k in m) && |InOrder(m.Keys)| == |m| && forall k | k in m :: k in InOrder(m.Keys)
    ensures var ps, ks := Pairs(m, InOrder(m.Keys)), InOrder(m.Keys);
            |ps| == |ks| && forall i | 0 <= i < |ks| :: ps[i] == Pair(ks[i], m[ks[i]])
  {
    InOrderLists(m.Keys);
    PairsAre(m, InOrder(m.Keys));
  }

  lemma PairsAreWhole(m: Labels)
    requires ReadableMap(m)
    ensures (forall k | k in InOrder(m.Keys) :: k in m) && forall p | p in Pairs(m, InOrder(m.Keys)) :: Whole(p, ',') && Fit(p)
  {
    PairsOf(m);
    hide Pairs, InOrder;
    var ks, ps := InOrder(m.Keys), Pairs(m, InOrder(m.Keys));
    forall i | 0 <= i < |ps|
      ensures Whole(ps[i], ',') && Fit(ps[i])
    {
      assert ks[i] in m;
      PairIsWhole(ks[i], m[ks[i]]);
    }
  }

  lemma PairIsWhole(k: string, v: string)
    requires ',' !in k && ',' !in v && Fit(k) && Fit(v)
    ensures Whole(Pair(k, v), ',') && Fit(Pair(k, v))
  {
  }

  lemma FitMap(m: Labels)
    requires ReadableMap(m)
    ensures Fit(StringMapFingerprint(m))
  {
    PairsAreWhole(m);
    hide Pairs, InOrder, Join;
    FitJoin(Pairs(m, InOrder(m.Keys)), ",");
  }

  lemma SamePairsSameMap(m: Labels, n: Labels)
    requires ReadableMap(m) && ReadableMap(n)
    requires (forall k | k in InOrder(m.Keys) :: k in m) && forall k | k in InOrder(n.Keys) :: k in n
    requires Pairs(m, InOrder(m.Keys)) == Pairs(n, InOrder(n.Keys))
    ensures m == n
  {
    PairsOf(m);
    PairsOf(n);
    hide Pairs, InOrder, Fit;
    var ks, ls := InOrder(m.Keys), InOrder(n.Keys);
    forall i | 0 <= i < |ks|
      ensures ks[i] == ls[i] && m[ks[i]] == n[ls[i]]
    {
      assert ks[i] in ks && ls[i] in ls;
      PairTells(ks[i], m[ks[i]], ls[i], n[ls[i]]);
    }
    assert ks == ls;
    forall k | k in m || k in n
      ensures k in m && k in n && m[k] == n[k]
    {
      assert k in ks;
      var i :| 0 <= i < |ks| && ks[i] == k;
    }
  }

  /** The fingerprint of a map tells the map. */
  lemma MapTextTells(m: Labels, n: Labels)
    requires ReadableMap(m) && ReadableMap(n) && StringMapFingerprint(m) == StringMapFingerprint(n)
    ensures m == n
  {
    hide Pairs, InOrder, Join, Pieces, Flat;
    PairsAreWhole(m);
    PairsAreWhole(n);
    hide ReadableMap, Whole, Fit;
    var ps, qs := Pairs(m, InOrder(m.Keys)), Pairs(n, InOrder(n.Keys));
    PiecesOfJoin(ps, ',');
    PiecesOfJoin(qs, ',');
    WholePieces(ps, ',');
    WholePieces(qs, ',');
    SamePairsSameMap(m, n);
  }

  // ---- A map in front of more text ----

  /** Labels as Kubernetes has them: keys may hold slashes but do not start with one, values hold none. */
  predicate LabelMap(m: Labels) {
    ReadableMap(m) && forall k | k in m :: '/' !in m[k] && (k == "" || k[0] != '/')
  }

  /** The text ends inside a value. */
  predicate InValue(s: string) {
    s != "" && (s[|s| - 1] == '=' || (s[|s| - 1] != ',' && InValue(s[..|s| - 1])))
  }

  /** No slash stands where a value is, and where the text ends there is one. */
  ghost predicate Settled(s: string) {
    && (s != "" ==> s[0] != '/' && InValue(s))
    && (forall i | 0 <= i < |s| && s[i] == '/' :: !InValue(s[..i]))
  }

  /** Settled text can be cut off the front, whatever follows the slash. */
  lemma SettledPrefix(s: string, x: string, t: string, y: string)
    requires Settled(s) && Settled(t) && s + "/" + x == t + "/" + y
    ensures s == t && x == y
  {
    var left, right := s + "/" + x, t + "/" + y;
    assert left[|s|] == '/' && right[|t|] == '/';
    assert s == left[..|s|] && t == right[..|t|];
    assert forall i | 0 <= i < |s| :: s[i] == left[i] && s[..i] == left[..i];
    assert forall i | 0 <= i < |t| :: t[i] == right[i] && t[..i] == right[..i];
    hide InValue;
    assert x == left[|s| + 1..] && y == right[|t| + 1..];
  }

  lemma {:induction false} InValueAfter(a: string, t: string)
    ensures InValue(a + "," + t) == InValue(t)
  {
    var s := a + "," + t;
    if t == "" {
      assert s[|s| - 1] == ',';
    } else {
      InValueAfter(a, t[..|t| - 1]);
      assert s[..|s| - 1] == a + "," + t[..|t| - 1] && s[|s| - 1] == t[|t| - 1];
    }
  }

  lemma {:induction false} NoValueYet(k: string)
    requires '=' !in k
    ensures !InValue(k)
  {
    if k != "" {
      NoValueYet(k[..|k| - 1]);
    }
  }

  lemma {:induction false} ValueStarted(k: string, v: string)
    requires ',' !in v
    ensures InValue(Pair(k, v))
  {
    var s := Pair(k, v);
    if v == "" {
      assert s[|s| - 1] == '=';
    } else {
      ValueStarted(k, v[..|v| - 1]);
      assert s[..|s| - 1] == Pair(k, v[..|v| - 1]) && s[|s| - 1] == v[|v| - 1];
    }
  }

  lemma PairSettles(k: string, v: string)
    requires '=' !in k && ',' !in v && '/' !in v && (k == "" || k[0] != '/')
    ensures Settled(Pair(k, v))
  {
    ValueStarted(k, v);
    var s := Pair(k, v);
    assert forall i | |k| < i < |s| :: s[i] == v[i - |k| - 1] && s[i] in v;
    forall i | 0 <= i < |s| && s[i] == '/'
      ensures !InValue(s[..i])
    {
      assert s[..i] == k[..i];
      NoValueYet(k[..i]);
    }
  }

  lemma SettledAppend(a: string, t: string)
    requires Settled(a) && Settled(t) && a != "" && t != ""
    ensures Settled(a + "," + t)
  {
    var s := a + "," + t;
    InValueAfter(a, t);
    forall i | 0 <= i < |s| && s[i] == '/'
      ensures !InValue(s[..i])
    {
      if i < |a| {
        assert s[..i] == a[..i];
      } else {
        var j := i - |a| - 1;
        assert s[..i] == a + "," + t[..j] && s[i] == t[j];
        InValueAfter(a, t[..j]);
      }
    }
  }

  lemma {:induction false} JoinSettles(parts: seq<string>)
    requires forall p | p in parts :: Settled(p) && p != ""
    ensures Settled(Join(parts, ",")) && (parts != [] ==> Join(parts, ",") != "")
  {
    hide Settled;
    if parts == [] {
      NothingSettled();
    } else if |parts| > 1 {
      JoinSettles(parts[1..]);
      SettledAppend(parts[0], Join(parts[1..], ","));
    }
  }

  lemma NothingSettled()
    ensures Settled("")
  {
  }

  lemma MapTextSettles(m: Labels)
    requires LabelMap(m)
    ensures Settled(StringMapFingerprint(m))
  {
    PairsOf(m);
    hide Pairs, InOrder, Join, Settled, Fit;
    var ks, ps := InOrder(m.Keys), Pairs(m, InOrder(m.Keys));
    forall i | 0 <= i < |ps|
      ensures Settled(ps[i]) && ps[i] != ""
    {
      assert ks[i] in ks;
      PairSettles(ks[i], m[ks[i]]);
    }
    JoinSettles(ps);
  }

  /** A map's fingerprint in front of more text tells the map and the rest. */
  lemma MapInFront(m: Labels, x: string, n: Labels, y: string)
    requires LabelMap(m) && LabelMap(n) && StringMapFingerprint(m) + "/" + x == StringMapFingerprint(n) + "/" + y
    ensures m == n && x == y
  {
    MapTextSettles(m);
    MapTextSettles(n);
    hide StringMapFingerprint, Settled, Fit;
    SettledPrefix(StringMapFingerprint(m), x, StringMapFingerprint(n), y);
    MapTextTells(m, n);
  }
}
