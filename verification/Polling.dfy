/** The polling stream: a baseline of fingerprints, and one change reported at a time. */
module Polling {
  import opened Strings
  import opened Sorting
  import opened GraphModel
  import opened Resources
  import opened Fingerprints
  import SnapshotOrder
  import WatchedView
  import WatchedReading
  import WatchedTheorem

  // ---- The first changed reference ----

  function RefKeyOf(r: Ref): string { r.namespace + "/" + r.name }

  /** The last reference under each key. */
  function RefMap(refs: seq<Ref>): map<string, Ref> {
    if refs == [] then map[] else RefMap(refs[..|refs| - 1])[RefKeyOf(refs[|refs| - 1]) := refs[|refs| - 1]]
  }

  /** Keys new or changed since the previous snapshot. */
  function ChangedKeys(previous: map<string, Ref>, current: map<string, Ref>): set<string> {
    set k | k in current && (k !in previous || previous[k].fingerprint != current[k].fingerprint)
  }

  function RemovedKeys(previous: map<string, Ref>, current: map<string, Ref>): set<string> {
    previous.Keys - current.Keys
  }

  /** The least added or changed key, else the least removed key, else nothing in particular. */
  ghost predicate IsFirstChanged(previous: map<string, Ref>, current: map<string, Ref>, namespace: string, name: string) {
    var changed, removed := ChangedKeys(previous, current), RemovedKeys(previous, current);
    if changed != {} then
      exists k :: IsLeast(k, changed) && namespace == current[k].namespace && name == current[k].name
    else if removed != {} then
      exists k :: IsLeast(k, removed) && namespace == previous[k].namespace && name == previous[k].name
    else namespace == "" && name == "poll"
  }

  method BuildRefMap(refs: seq<Ref>) returns (m: map<string, Ref>)
    ensures m == RefMap(refs)
  {
    m := map[];
    for i := 0 to |refs|
      invariant m == RefMap(refs[..i])
    {
      assert refs[..i + 1][..i] == refs[..i];
      m := m[refs[i].namespace + "/" + refs[i].name := refs[i]];
    }
    PrefixEnds(refs);
  }

  lemma LeastOfPrefix(keys: seq<string>, all: set<string>, i: nat, wanted: set<string>)
    requires Ascending(keys) && i < |keys| && (forall k :: k in keys <==> k in all) && wanted <= all
    requires keys[i] in wanted && forall j | 0 <= j < i :: keys[j] !in wanted
    ensures IsLeast(keys[i], wanted)
  {
    hide Less;
    forall k | k in wanted && k != keys[i]
      ensures Less(keys[i], k)
    {
      assert k in keys;
      var j :| 0 <= j < |keys| && keys[j] == k;
    }
  }

  /** The least wanted key of a map, if any. */
  method FirstWanted(keys: seq<string>, wanted: set<string>) returns (found: bool, key: string)
    requires Ascending(keys) && forall k | k in wanted :: k in keys
    ensures found <==> wanted != {}
    ensures found ==> IsLeast(key, wanted)
  {
    hide Less, Ascending;
    for i := 0 to |keys|
      invariant forall j | 0 <= j < i :: keys[j] !in wanted
    {
      if keys[i] in wanted {
        LeastOfPrefix(keys, (set k | k in keys), i, wanted);
        return true, keys[i];
      }
    }
    return false, "";
  }

  method FirstChangedRef(previous: seq<Ref>, current: seq<Ref>) returns (namespace: string, name: string)
    ensures IsFirstChanged(RefMap(previous), RefMap(current), namespace, name)
  {
    hide Less, RefMap, Ascending, IsLeast;
    var before := BuildRefMap(previous);
    var now := BuildRefMap(current);
    var keys := SortedElements(now.Keys);
    var found, key := FirstWanted(keys, ChangedKeys(before, now));
    if found {
      LeastIsIn(key, ChangedKeys(before, now));
      return now[key].namespace, now[key].name;
    }
    keys := SortedElements(RemovedKeys(before, now));
    found, key := FirstWanted(keys, RemovedKeys(before, now));
    if found {
      LeastIsIn(key, RemovedKeys(before, now));
      return before[key].namespace, before[key].name;
    }
    return "", "poll";
  }

  lemma LeastIsIn(k: string, keys: set<string>)
    requires IsLeast(k, keys)
    ensures k in keys
  {
  }

  /** The reference depends on the maps alone. */
  lemma FirstChangedIsUnique(previous: map<string, Ref>, current: map<string, Ref>, ns1: string, name1: string, ns2: string, name2: string)
    requires IsFirstChanged(previous, current, ns1, name1) && IsFirstChanged(previous, current, ns2, name2)
    ensures ns1 == ns2 && name1 == name2
  {
    hide Less;
    var changed, removed := ChangedKeys(previous, current), RemovedKeys(previous, current);
    if changed != {} {
      forall a, b | IsLeast(a, changed) && IsLeast(b, changed) { LeastIsUnique(a, b, changed); }
    } else if removed != {} {
      forall a, b | IsLeast(a, removed) && IsLeast(b, removed) { LeastIsUnique(a, b, removed); }
    }
  }

  // ---- The stream ----

  type Hashes = map<Category, nat>

  function HashesOf(hash: string -> nat, s: Snapshot): Hashes {
    map c: Category | c in CATEGORIES :: hash(CategoryInput(s, c))
  }

  datatype ChangedKind = Changed(category: Category) | Unknown

  function KindName(k: ChangedKind): string {
    match k
    case Changed(c) => CategoryName(c)
    case Unknown => "poll"
  }

  /** The first category, in their fixed order, whose hash moved. */
  function FirstChangedKind(previous: Hashes, current: Hashes, cs: seq<Category>): ChangedKind {
    if cs == [] then Unknown
    else if cs[0] in current && (cs[0] !in previous || previous[cs[0]] != current[cs[0]]) then Changed(cs[0])
    else FirstChangedKind(previous, current, cs[1..])
  }

  datatype Collected = TheSnapshot(snapshot: Snapshot) | CollectFailed

  datatype Tick = Quiet | Emitted(kind: string, namespace: string, name: string, accepted: bool) | TickFailed

  /** What may be reported for a move from one snapshot to another. */
  ghost predicate IsReport(hash: string -> nat, before: Snapshot, after: Snapshot, kind: string, namespace: string, name: string) {
    var changed := FirstChangedKind(HashesOf(hash, before), HashesOf(hash, after), CATEGORIES);
    && kind == KindName(changed)
    && match changed
       case Unknown => namespace == "" && name == "poll"
       case Changed(c) => IsFirstChanged(RefMap(RefsOf(before, c)), RefMap(RefsOf(after, c)), namespace, name)
  }

  class PollingStream {
    const hash: string -> nat
    var started: bool
    var lastHash: nat
    var lastCategoryHashes: Hashes
    var lastSnapshot: Snapshot

    constructor (hash: string -> nat, none: Snapshot)
      ensures !started && Valid() && this.hash == hash
    {
      this.hash, started, lastHash, lastCategoryHashes, lastSnapshot := hash, false, 0, map[], none;
    }

    /** The baseline hashes are those of the baseline snapshot. */
    ghost predicate Valid()
      reads this
    {
      started ==> lastHash == hash(TotalInput(lastSnapshot)) && lastCategoryHashes == HashesOf(hash, lastSnapshot)
    }

    method CategoryHashes(s: Snapshot) returns (hashes: Hashes)
      ensures hashes == HashesOf(hash, s)
    {
      hide CategoryInput;
      hashes := map[];
      for i := 0 to |CATEGORIES|
        invariant hashes == map c: Category | c in CATEGORIES[..i] :: hash(CategoryInput(s, c))
      {
        PrefixStep(CATEGORIES, i);
        hashes := hashes[CATEGORIES[i] := hash(CategoryInput(s, CATEGORIES[i]))];
      }
      PrefixEnds(CATEGORIES);
    }

    /** One poll. The baseline moves on the first snapshot and when the sink accepts a report, and only then. */
    method Tick(collected: Collected, accepts: bool) returns (t: Tick)
      requires Valid()
      modifies this
      ensures Valid()
      ensures collected.CollectFailed? ==> t == TickFailed
      ensures collected.TheSnapshot? && !old(started) ==> t == Quiet && started && lastSnapshot == collected.snapshot
      ensures collected.TheSnapshot? && old(started) ==>
        (t == Quiet <==> hash(TotalInput(collected.snapshot)) == hash(TotalInput(old(lastSnapshot))))
      ensures collected.TheSnapshot? && old(started) && t != Quiet ==>
        t.Emitted? && t.accepted == accepts && IsReport(hash, old(lastSnapshot), collected.snapshot, t.kind, t.namespace, t.name)
      ensures t.Emitted? && t.accepted ==> started && lastSnapshot == collected.snapshot
      ensures old(started) && !(t.Emitted? && t.accepted) ==> unchanged(this)
      ensures collected.CollectFailed? ==> unchanged(this)
    {
      hide TotalInput, HashesOf, RefsOf, IsFirstChanged, FirstChangedKind;
      if collected.CollectFailed? {
        return TickFailed;
      }
      var snapshot := collected.snapshot;
      var total := hash(TotalInput(snapshot));
      var hashes := CategoryHashes(snapshot);
      if !started {
        started, lastHash, lastCategoryHashes, lastSnapshot := true, total, hashes, snapshot;
        return Quiet;
      }
      if total == lastHash {
        return Quiet;
      }
      var changed := FirstChangedKind(lastCategoryHashes, hashes, CATEGORIES);
      var namespace, name := "", "poll";
      if changed.Changed? {
        namespace, name := FirstChangedRef(RefsOf(lastSnapshot, changed.category), RefsOf(snapshot, changed.category));
      }
      if !accepts {
        return Emitted(KindName(changed), namespace, name, false);
      }
      lastHash, lastCategoryHashes, lastSnapshot := total, hashes, snapshot;
      return Emitted(KindName(changed), namespace, name, true);
    }
  }

  /** A poll that finds only a new order, or changes in what it does not watch, emits nothing and keeps its state. */
  method ReorderingIsQuiet(stream: PollingStream, next: Snapshot, accepts: bool) returns (t: Tick)
    requires stream.Valid() && stream.started
    requires SnapshotOrder.SameButOrder(WatchedView.Watched(stream.lastSnapshot), WatchedView.Watched(next))
    requires SnapshotOrder.DistinctOwners(SnapshotOrder.OwnersOf(stream.lastSnapshot)) && SnapshotOrder.DistinctOwners(SnapshotOrder.OwnersOf(next))
    modifies stream
    ensures t == Quiet && unchanged(stream)
  {
    hide TotalInput, SnapshotOrder.SameButOrder, SnapshotOrder.DistinctOwners, SnapshotOrder.OwnersOf, WatchedView.Watched;
    WatchedView.AlikeViewsAgree(stream.lastSnapshot, next);
    t := stream.Tick(TheSnapshot(next), accepts);
  }

  /** Where the hash tells the two inputs apart and the fields can be read, a poll is quiet exactly when nothing watched has changed but
      its order. */
  method QuietExactlyWhenViewsAgree(stream: PollingStream, next: Snapshot, accepts: bool) returns (t: Tick)
    requires stream.Valid() && stream.started
    requires WatchedReading.Readable(stream.lastSnapshot) && WatchedReading.Readable(next)
    requires SnapshotOrder.DistinctOwners(SnapshotOrder.OwnersOf(stream.lastSnapshot)) && SnapshotOrder.DistinctOwners(SnapshotOrder.OwnersOf(next))
    requires stream.hash(TotalInput(stream.lastSnapshot)) == stream.hash(TotalInput(next)) ==> TotalInput(stream.lastSnapshot) == TotalInput(next)
    modifies stream
    ensures t == Quiet <==> SnapshotOrder.SameButOrder(WatchedView.Watched(old(stream.lastSnapshot)), WatchedView.Watched(next))
  {
    hide TotalInput, IsReport, SnapshotOrder.SameButOrder, SnapshotOrder.DistinctOwners, SnapshotOrder.OwnersOf, WatchedView.Watched,
         WatchedReading.Readable;
    WatchedTheorem.InputsAgreeExactlyWhenViewsDo(stream.lastSnapshot, next);
    t := stream.Tick(TheSnapshot(next), accepts);
  }

  /** A report names a category whose fingerprints really moved, the first such category in their fixed order. */
  lemma ReportsNameAChange(hash: string -> nat, before: Snapshot, after: Snapshot, kind: string, namespace: string, name: string, i: nat)
    requires IsReport(hash, before, after, kind, namespace, name) && i < |CATEGORIES| && kind == CategoryName(CATEGORIES[i])
    ensures Joined(before, CATEGORIES[i]) != Joined(after, CATEGORIES[i])
    ensures forall j | 0 <= j < i :: hash(CategoryInput(before, CATEGORIES[j])) == hash(CategoryInput(after, CATEGORIES[j]))
  {
    hide Joined, RefsOf, IsFirstChanged, CategoryName, FirstChangedKind;
    var previous, current := HashesOf(hash, before), HashesOf(hash, after);
    FirstIsFirst(previous, current, CATEGORIES);
    NamesTellApart(FirstChangedKind(previous, current, CATEGORIES), CATEGORIES[i]);
    hide CategoryInput;
    var k :| 0 <= k < |CATEGORIES| && FirstMoved(previous, current, CATEGORIES, k) && CATEGORIES[k] == CATEGORIES[i];
    CategoriesAreDistinct();
    assert CATEGORIES[i] in CATEGORIES;
    forall j | 0 <= j < i
      ensures hash(CategoryInput(before, CATEGORIES[j])) == hash(CategoryInput(after, CATEGORIES[j]))
    {
      assert CATEGORIES[j] in CATEGORIES && Agree(previous, current, CATEGORIES[j]);
    }
    SameJoinedSameInput(before, after, CATEGORIES[i]);
  }

  lemma SameJoinedSameInput(before: Snapshot, after: Snapshot, c: Category)
    ensures Joined(before, c) == Joined(after, c) ==> CategoryInput(before, c) == CategoryInput(after, c)
  {
    hide Joined, CategoryName;
  }

  lemma CategoriesAreDistinct()
    ensures forall i, j | 0 <= i < j < |CATEGORIES| :: CATEGORIES[i] != CATEGORIES[j]
  {
  }

  lemma NamesTellApart(k: ChangedKind, c: Category)
    requires KindName(k) == CategoryName(c)
    ensures k == Changed(c)
  {
    assert |KindName(k)| == |CategoryName(c)|;
    assert KindName(k)[0] == CategoryName(c)[0];
  }

  predicate Agree(previous: Hashes, current: Hashes, c: Category) {
    c in current ==> c in previous && previous[c] == current[c]
  }

  ghost predicate FirstMoved(previous: Hashes, current: Hashes, cs: seq<Category>, i: nat)
    requires i < |cs|
  {
    !Agree(previous, current, cs[i]) && forall j | 0 <= j < i :: Agree(previous, current, cs[j])
  }

  lemma {:induction false} FirstIsFirst(previous: Hashes, current: Hashes, cs: seq<Category>)
    ensures FirstChangedKind(previous, current, cs).Changed? ==>
      exists i | 0 <= i < |cs| :: FirstMoved(previous, current, cs, i) && cs[i] == FirstChangedKind(previous, current, cs).category
  {
    if cs != [] {
      if Agree(previous, current, cs[0]) {
        FirstIsFirst(previous, current, cs[1..]);
        if FirstChangedKind(previous, current, cs).Changed? {
          var i :| 0 <= i < |cs[1..]| && FirstMoved(previous, current, cs[1..], i)
            && cs[1..][i] == FirstChangedKind(previous, current, cs).category;
          assert forall j | 1 <= j < i + 1 :: cs[j] == cs[1..][j - 1];
          assert FirstMoved(previous, current, cs, i + 1);
        }
      } else {
        assert FirstMoved(previous, current, cs, 0);
      }
    }
  }
}
