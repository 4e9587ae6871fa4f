/** Reading workloads and replica sets back, although a replica set is printed once for each workload that owns it. */
module WatchedWorkloads {
  import opened GraphModel
  import opened Resources
  import opened OwnerChain
  import opened SnapshotOrder
  import opened Fingerprints
  import opened Splitting
  import opened MapReading
  import opened FingerprintReading
  import opened WatchedPieces
  import opened WatchedReading

  function WorkloadPrintF(): KubeWorkload -> seq<string> { (w: KubeWorkload) => [WorkloadFingerprint(w)] }
  function ReplicaSetPrintF(): KubeReplicaSet -> seq<string> { (x: KubeReplicaSet) => [ReplicaSetFingerprint(x)] }

  /** All the prints one replica set leaves. */
  function ReplicaSetPrintsF(r: Resolver): KubeReplicaSet -> seq<string> {
    (x: KubeReplicaSet) => Flat(ReplicaSetPartF(r)(x), PrintF())
  }

  lemma ContributionPrints(s: Snapshot)
    ensures Flat(Contributions(s), PrintF()) == Flat(s.workloads, WorkloadPrintF()) + Flat(s.replicaSets, ReplicaSetPrintsF(StreamResolver(s)))
  {
    hide Flat, WorkloadFingerprint, StreamResolver, ReplicaSetPartF;
    forall w
      ensures Flat(WorkloadPartF()(w), PrintF()) == WorkloadPrintF()(w)
    {
      OneFlat(Contribution(MetaKey(w.meta), WorkloadFingerprint(w)), PrintF());
    }
    hide WorkloadPartF, WorkloadPrintF, PrintF;
    var r := StreamResolver(s);
    FlatOfFlat(s.workloads, WorkloadPartF(), PrintF(), WorkloadPrintF());
    FlatOfFlat(s.replicaSets, ReplicaSetPartF(r), PrintF(), ReplicaSetPrintsF(r));
    FlatAppend(Flat(s.workloads, WorkloadPartF()), Flat(s.replicaSets, ReplicaSetPartF(r)), PrintF());
  }

  /** A replica set leaves at least one print, and nothing but its own. */
  lemma PrintsAreOwn(r: Resolver, x: KubeReplicaSet)
    ensures var ps := ReplicaSetPrintsF(r)(x); ps != [] && forall p | p in ps :: p == ReplicaSetFingerprint(x)
  {
    var f, targets := ReplicaSetFingerprint(x), ResolveReferences(r, x.meta.namespace, x.ownerReferences);
    hide ReplicaSetFingerprint, ResolveReferences;
    var parts := ReplicaSetPartF(r)(x);
    assert parts != [] && forall c | c in parts :: c.fingerprint == f by {
      if targets != [] {
        FlatMembers(targets, TargetPartF(f));
        assert targets[0] in targets && TargetPartF(f)(targets[0])[0] in TargetPartF(f)(targets[0]);
        assert TargetPartF(f)(targets[0])[0] in parts;
      }
    }
    hide ReplicaSetPartF;
    FlatMembers(parts, PrintF());
    assert parts[0] in parts && f in PrintF()(parts[0]);
    hide Flat;
    assert f in Flat(parts, PrintF());
  }

  lemma ContributionsAreSound(s: Snapshot)
    requires Readable(s)
    ensures forall c | c in Contributions(s) :: Whole(c.fingerprint, '|')
  {
    hide Flat, Contributions, ReplicaSetPrintsF, WorkloadPrintF, Readable, Fit, Whole, StreamResolver;
    forall c | c in Contributions(s)
      ensures Whole(c.fingerprint, '|')
    {
      ContributionIsPrinted(s, c);
      PrintIsSound(s, StreamResolver(s), c.fingerprint);
    }
  }

  lemma ContributionIsPrinted(s: Snapshot, c: Contribution)
    requires c in Contributions(s)
    ensures c.fingerprint in Flat(s.workloads, WorkloadPrintF()) + Flat(s.replicaSets, ReplicaSetPrintsF(StreamResolver(s)))
  {
    ContributionPrints(s);
    FlatMembers(Contributions(s), PrintF());
    hide Flat, Contributions, ReplicaSetPrintsF, WorkloadPrintF, StreamResolver;
    assert c.fingerprint in PrintF()(c);
  }

  lemma PrintIsSound(s: Snapshot, r: Resolver, t: string)
    requires Readable(s) && t in Flat(s.workloads, WorkloadPrintF()) + Flat(s.replicaSets, ReplicaSetPrintsF(r))
    ensures Sound(t)
  {
    FlatMembers(s.workloads, WorkloadPrintF());
    FlatMembers(s.replicaSets, ReplicaSetPrintsF(r));
    hide Sound, WorkloadFingerprint, ReplicaSetFingerprint, ReplicaSetPrintsF, Flat, ReadableWorkload, ReadableReplicaSet;
    if w :| w in s.workloads && t in WorkloadPrintF()(w) {
      WorkloadIsSound(w);
    } else {
      var x :| x in s.replicaSets && t in ReplicaSetPrintsF(r)(x);
      PrintsAreOwn(r, x);
      ReplicaSetIsSound(x);
    }
  }

  ghost predicate IsWorkloadPrint(t: string) { exists w :: ReadableWorkload(w) && WorkloadFingerprint(w) == t }

  lemma WorkloadPrintsAre(s: Snapshot)
    requires Readable(s)
    ensures forall t | t in Flat(s.workloads, WorkloadPrintF()) :: IsWorkloadPrint(t)
  {
    FlatMembers(s.workloads, WorkloadPrintF());
    hide WorkloadFingerprint, ReadableWorkload, Flat;
  }

  lemma ReplicaSetPrintsAreNot(s: Snapshot, r: Resolver)
    requires Readable(s)
    ensures forall t | t in Flat(s.replicaSets, ReplicaSetPrintsF(r)) :: !IsWorkloadPrint(t)
  {
    FlatMembers(s.replicaSets, ReplicaSetPrintsF(r));
    hide WorkloadFingerprint, ReplicaSetFingerprint, ReplicaSetPrintsF, Flat, ReadableWorkload, ReadableReplicaSet;
    forall t, w | t in Flat(s.replicaSets, ReplicaSetPrintsF(r)) && ReadableWorkload(w)
      ensures WorkloadFingerprint(w) != t
    {
      var x :| x in s.replicaSets && t in ReplicaSetPrintsF(r)(x);
      PrintsAreOwn(r, x);
      WorkloadsAreNoReplicaSets(w, x);
    }
  }

  lemma JoinedWorkloads(s: Snapshot)
    ensures Joined(s, Workloads) == SortedJoin(Flat(GroupedRefs(Contributions(s)), FingerprintF()), "|")
  {
    hide Flat, GroupedRefs, Contributions, SortedJoin, FingerprintF;
  }

  lemma JoinedPieces(s: Snapshot)
    requires Readable(s)
    ensures multiset(Pieces(Joined(s, Workloads), '|')) == multiset(Flat(Contributions(s), PrintF()))
  {
    hide Flat, Contributions, Readable, Whole, Pieces, PrintF, Joined, SortedJoin, GroupedRefs, FingerprintF;
    ContributionsAreSound(s);
    JoinedWorkloads(s);
    GroupedPieces(Contributions(s));
  }

  lemma AllPrintsAgree(a: Snapshot, b: Snapshot)
    requires Readable(a) && Readable(b) && Joined(a, Workloads) == Joined(b, Workloads)
    ensures multiset(Flat(Contributions(a), PrintF())) == multiset(Flat(Contributions(b), PrintF()))
  {
    hide Flat, Contributions, Readable, Pieces, PrintF, Joined;
    JoinedPieces(a);
    JoinedPieces(b);
  }

  lemma KindsApart(w: seq<string>, x: seq<string>, v: seq<string>, y: seq<string>)
    requires multiset(w + x) == multiset(v + y)
    requires (forall t | t in w || t in v :: IsWorkloadPrint(t)) && forall t | t in x || t in y :: !IsWorkloadPrint(t)
    ensures multiset(w) == multiset(v) && multiset(x) == multiset(y)
  {
    hide IsWorkloadPrint;
    assert multiset(w + x) == multiset(w) + multiset(x) && multiset(v + y) == multiset(v) + multiset(y);
    SameParts(multiset(w), multiset(x), multiset(v), multiset(y), IsWorkloadPrint);
  }

  /** The texts agree kind by kind. */
  lemma WorkloadKinds(a: Snapshot, b: Snapshot)
    requires Readable(a) && Readable(b) && Joined(a, Workloads) == Joined(b, Workloads)
    ensures multiset(Flat(a.workloads, WorkloadPrintF())) == multiset(Flat(b.workloads, WorkloadPrintF()))
    ensures multiset(Flat(a.replicaSets, ReplicaSetPrintsF(StreamResolver(a)))) == multiset(Flat(b.replicaSets, ReplicaSetPrintsF(StreamResolver(b))))
  {
    hide Flat, Contributions, Readable, StreamResolver, WorkloadPrintF, ReplicaSetPrintsF, IsWorkloadPrint, Joined, PrintF;
    AllPrintsAgree(a, b);
    ContributionPrints(a);
    ContributionPrints(b);
    WorkloadPrintsAre(a);
    WorkloadPrintsAre(b);
    ReplicaSetPrintsAreNot(a, StreamResolver(a));
    ReplicaSetPrintsAreNot(b, StreamResolver(b));
    KindsApart(Flat(a.workloads, WorkloadPrintF()), Flat(a.replicaSets, ReplicaSetPrintsF(StreamResolver(a))),
               Flat(b.workloads, WorkloadPrintF()), Flat(b.replicaSets, ReplicaSetPrintsF(StreamResolver(b))));
  }

  lemma PrintsTell(a: Snapshot, b: Snapshot)
    requires Readable(a) && Readable(b)
    ensures forall v, w | v in a.workloads && w in b.workloads && WorkloadPrintF()(v) == WorkloadPrintF()(w) :: SameWorkload(v, w)
    ensures forall x, y | x in a.replicaSets && y in b.replicaSets && ReplicaSetPrintF()(x) == ReplicaSetPrintF()(y) :: SameReplicaSet(x, y)
  {
    hide WorkloadFingerprint, ReplicaSetFingerprint, SameWorkload, SameReplicaSet, ReadableWorkload, ReadableReplicaSet;
    forall v, w | v in a.workloads && w in b.workloads && WorkloadPrintF()(v) == WorkloadPrintF()(w)
      ensures SameWorkload(v, w)
    {
      assert [WorkloadFingerprint(v)][0] == [WorkloadFingerprint(w)][0];
      WorkloadTold(v, w);
    }
    forall x, y | x in a.replicaSets && y in b.replicaSets && ReplicaSetPrintF()(x) == ReplicaSetPrintF()(y)
      ensures SameReplicaSet(x, y)
    {
      assert [ReplicaSetFingerprint(x)][0] == [ReplicaSetFingerprint(y)][0];
      ReplicaSetTold(x, y);
    }
  }

  lemma WorkloadsTold(a: Snapshot, b: Snapshot)
    requires Readable(a) && Readable(b) && Joined(a, Workloads) == Joined(b, Workloads)
    ensures Reordered(a.workloads, b.workloads, SameWorkload)
  {
    hide Flat, WorkloadFingerprint, Readable, SameWorkload, Joined, Reordered, ReplicaSetPrintsF, StreamResolver;
    WorkloadKinds(a, b);
    PrintsTell(a, b);
    ToldByContributions(a.workloads, b.workloads, WorkloadPrintF(), SameWorkload);
  }

  // ---- Replica sets ----

  /** Every replica set printed on one side is listed on the other. */
  lemma ReplicaSetsFollow(a: Snapshot, b: Snapshot)
    requires Readable(a) && Readable(b)
    requires multiset(Flat(a.replicaSets, ReplicaSetPrintsF(StreamResolver(a)))) == multiset(Flat(b.replicaSets, ReplicaSetPrintsF(StreamResolver(b))))
    ensures forall x | x in a.replicaSets :: exists y | y in b.replicaSets :: SameReplicaSet(x, y)
  {
    var r, q := StreamResolver(a), StreamResolver(b);
    FlatMembers(a.replicaSets, ReplicaSetPrintsF(r));
    FlatMembers(b.replicaSets, ReplicaSetPrintsF(q));
    hide Flat, ReplicaSetFingerprint, ReadableReplicaSet, SameReplicaSet, ReplicaSetPrintsF, StreamResolver;
    forall x | x in a.replicaSets
      ensures exists y | y in b.replicaSets :: SameReplicaSet(x, y)
    {
      PrintsAreOwn(r, x);
      var t := ReplicaSetPrintsF(r)(x)[0];
      assert t in ReplicaSetPrintsF(r)(x);
      assert t in Flat(a.replicaSets, ReplicaSetPrintsF(r));
      assert t in multiset(Flat(b.replicaSets, ReplicaSetPrintsF(q)));
      assert t in Flat(b.replicaSets, ReplicaSetPrintsF(q));
      var y :| y in b.replicaSets && t in ReplicaSetPrintsF(q)(y);
      PrintsAreOwn(q, y);
      ReplicaSetTold(x, y);
    }
  }

  lemma SameIsSymmetric()
    ensures forall w, v :: SameWorkload(w, v) <==> SameWorkload(v, w)
    ensures forall x, y :: SameReplicaSet(x, y) <==> SameReplicaSet(y, x)
  {
  }

  lemma OwnersTold(a: Snapshot, b: Snapshot)
    requires Readable(a) && Readable(b) && Joined(a, Workloads) == Joined(b, Workloads)
    requires DistinctOwners(OwnersOf(a)) && DistinctOwners(OwnersOf(b))
    ensures OwnerReach.SameResolver(StreamResolver(a), StreamResolver(b))
  {
    hide Readable, Joined, DistinctOwners, OwnersOf, StreamResolver, SameWorkload, SameReplicaSet, Reordered, Correspond, Flat,
         OwnerReach.SameResolver, ReplicaSetPrintsF, WorkloadPrintF;
    WorkloadsTold(a, b);
    WorkloadKinds(a, b);
    ReplicaSetsFollow(a, b);
    ReplicaSetsFollow(b, a);
    SameIsSymmetric();
    ReorderedMembers(a.workloads, b.workloads, SameWorkload);
    OwnersFollow(a, b);
    OwnersFollow(b, a);
    CorrespondingResolvers(a, b);
  }

  function Times(k: nat, n: nat): nat { if k == 0 then 0 else n + Times(k - 1, n) }

  lemma {:induction false} TimesTells(k: nat, m: nat, n: nat)
    requires n > 0 && Times(k, n) == Times(m, n)
    ensures k == m
  {
    if k > 0 && m > 0 {
      TimesTells(k - 1, m - 1, n);
    }
  }

  lemma {:induction false} Copies(ps: seq<string>, t: string)
    requires forall p | p in ps :: p == t
    ensures multiset(ps)[t] == |ps| && forall u | u != t :: multiset(ps)[u] == 0
  {
    if ps != [] {
      assert ps[|ps| - 1] in ps;
      var init := ps[..|ps| - 1];
      assert forall i | 0 <= i < |init| :: init[i] == ps[i] && ps[i] in ps;
      Copies(init, t);
      assert ps == ps[..|ps| - 1] + [ps[|ps| - 1]];
    }
  }

  /** One more list of copies, one more element. */
  lemma OneMoreCount(many: seq<string>, ones: seq<string>, ps: seq<string>, own: string, t: string, n: nat)
    requires multiset(many)[t] == Times(multiset(ones)[t], n) && (own == t ==> |ps| == n) && forall p | p in ps :: p == own
    ensures multiset(many + ps)[t] == Times(multiset(ones + [own])[t], n)
  {
    Copies(ps, own);
    assert multiset(many + ps) == multiset(many) + multiset(ps) && multiset(ones + [own]) == multiset(ones) + multiset{own};
  }

  /** Of one print there are as many as replica sets that leave it, times how often each leaves it. */
  lemma {:induction false} PrintCount(r: Resolver, xs: seq<KubeReplicaSet>, t: string, n: nat)
    requires forall x | x in xs && ReplicaSetFingerprint(x) == t :: |ReplicaSetPrintsF(r)(x)| == n
    ensures multiset(Flat(xs, ReplicaSetPrintsF(r)))[t] == Times(multiset(Flat(xs, ReplicaSetPrintF()))[t], n)
  {
    hide ReplicaSetFingerprint, ReplicaSetPrintsF, Times;
    if xs == [] {
      NoTimes(n);
    } else {
      var init, x := xs[..|xs| - 1], xs[|xs| - 1];
      assert xs == init + [x] && x in xs;
      PrintCount(r, init, t, n);
      PrintsAreOwn(r, x);
      OneMoreCount(Flat(init, ReplicaSetPrintsF(r)), Flat(init, ReplicaSetPrintF()), ReplicaSetPrintsF(r)(x), ReplicaSetFingerprint(x), t, n);
    }
  }

  lemma NoTimes(n: nat)
    ensures Times(0, n) == 0
  {
  }

  /** Replica sets that print alike leave equally many prints, on either side. */
  lemma SameNumber(r: Resolver, q: Resolver, x: KubeReplicaSet, y: KubeReplicaSet)
    requires ReadableReplicaSet(x) && ReadableReplicaSet(y) && ReplicaSetFingerprint(x) == ReplicaSetFingerprint(y)
    requires OwnerReach.SameResolver(r, q) && OwnerReach.ToldApart(r) && OwnerReach.ToldApart(q) && OwnerReach.TargetsIdentify(r)
    ensures |ReplicaSetPrintsF(r)(x)| == |ReplicaSetPrintsF(q)(y)|
  {
    hide ReplicaSetFingerprint, ReadableReplicaSet, SameReplicaSet, ReplicaSetPartF, OwnerReach.SameResolver, OwnerReach.ToldApart,
         OwnerReach.TargetsIdentify;
    ReplicaSetTold(x, y);
    PartsForgetOrder(r, q, x, y);
  }

  lemma PrintsAgree(a: Snapshot, b: Snapshot, r: Resolver, q: Resolver, t: string)
    requires Readable(a) && Readable(b)
    requires multiset(Flat(a.replicaSets, ReplicaSetPrintsF(r))) == multiset(Flat(b.replicaSets, ReplicaSetPrintsF(q)))
    requires forall x, y | ReadableReplicaSet(x) && ReadableReplicaSet(y) && ReplicaSetFingerprint(x) == ReplicaSetFingerprint(y) ::
               |ReplicaSetPrintsF(r)(x)| == |ReplicaSetPrintsF(q)(y)|
    ensures multiset(Flat(a.replicaSets, ReplicaSetPrintF()))[t] == multiset(Flat(b.replicaSets, ReplicaSetPrintF()))[t]
  {
    hide Flat, ReplicaSetFingerprint, ReplicaSetPrintsF, ReadableReplicaSet;
    if x :| ReadableReplicaSet(x) && ReplicaSetFingerprint(x) == t {
      var n := |ReplicaSetPrintsF(r)(x)|;
      assert |ReplicaSetPrintsF(q)(x)| == n;
      PrintCount(r, a.replicaSets, t, n);
      PrintCount(q, b.replicaSets, t, n);
      PrintsAreOwn(r, x);
      TimesTells(multiset(Flat(a.replicaSets, ReplicaSetPrintF()))[t], multiset(Flat(b.replicaSets, ReplicaSetPrintF()))[t], n);
    } else {
      FlatMembers(a.replicaSets, ReplicaSetPrintF());
      FlatMembers(b.replicaSets, ReplicaSetPrintF());
      assert t !in Flat(a.replicaSets, ReplicaSetPrintF()) && t !in Flat(b.replicaSets, ReplicaSetPrintF());
    }
  }

  lemma ReplicaSetsTold(a: Snapshot, b: Snapshot)
    requires Readable(a) && Readable(b) && Joined(a, Workloads) == Joined(b, Workloads)
    requires DistinctOwners(OwnersOf(a)) && DistinctOwners(OwnersOf(b))
    ensures Reordered(a.replicaSets, b.replicaSets, SameReplicaSet)
  {
    hide Flat, ReplicaSetFingerprint, Readable, SameReplicaSet, Joined, Reordered, ReadableReplicaSet, ReplicaSetPrintsF, WorkloadPrintF,
         StreamResolver, OwnerReach.SameResolver, OwnerReach.ToldApart, OwnerReach.TargetsIdentify, DistinctOwners, OwnersOf;
    var r, q := StreamResolver(a), StreamResolver(b);
    OwnersTold(a, b);
    ResolversIdentify(a);
    ResolversIdentify(b);
    WorkloadKinds(a, b);
    PrintsTell(a, b);
    forall x, y | ReadableReplicaSet(x) && ReadableReplicaSet(y) && ReplicaSetFingerprint(x) == ReplicaSetFingerprint(y)
      ensures |ReplicaSetPrintsF(r)(x)| == |ReplicaSetPrintsF(q)(y)|
    {
      SameNumber(r, q, x, y);
    }
    forall t { PrintsAgree(a, b, r, q, t); }
    ToldByContributions(a.replicaSets, b.replicaSets, ReplicaSetPrintF(), SameReplicaSet);
  }
}
