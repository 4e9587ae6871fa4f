/** The polling stream sees exactly the watched view, up to order. */
module WatchedTheorem {
  import opened Identity
  import opened Strings
  import opened Sorting
  import opened GraphModel
  import opened Resources
  import opened SnapshotOrder
  import opened Fingerprints
  import opened Splitting
  import opened MapReading
  import opened FingerprintReading
  import opened ObjectReading
  import opened WatchedPieces
  import opened WatchedView
  import opened WatchedReading
  import opened WatchedWorkloads

  /** Category by category, equal texts come from views alike but for order. */
  lemma TextsTellTheView(a: Snapshot, b: Snapshot)
    requires Readable(a) && Readable(b) && DistinctOwners(OwnersOf(a)) && DistinctOwners(OwnersOf(b))
    requires forall c :: Joined(a, c) == Joined(b, c)
    ensures SameButOrder(Watched(a), Watched(b))
  {
    hide Flat, Readable, Reordered, Joined, OwnersOf, DistinctOwners, WatchedPVCF, WatchedPVF, WatchedClassF, WatchedDriverF, WatchedEventF,
         WatchedAccountF, WatchedRoleBindingF, WatchedClusterRoleBindingF;
    WorkloadsTold(a, b);
    ReplicaSetsTold(a, b);
    PodsTold(a, b);
    ServicesTold(a, b);
    ClaimsTold(a, b);
    ClassesTold(a, b);
    EventsTold(a, b);
    AccountsTold(a, b);
    BindingsTold(a, b);
  }

  // ---- From the whole input to the categories ----

  lemma TextsAvoidNul(texts: seq<string>)
    requires forall t | t in texts :: '\U{0}' !in t
    ensures '\U{0}' !in SortedJoin(texts, "|")
  {
    SortKeeps(texts, (x: string) => [x]);
    SameElements(texts, SortStrings(texts));
    JoinAvoids(SortStrings(texts), "|", '\U{0}');
  }

  lemma PrintsAreFit(texts: seq<string>)
    requires forall t | t in texts :: Fit(t)
    ensures '\U{0}' !in SortedJoin(texts, "|")
  {
    TextsAvoidNul(texts);
  }

  lemma GroupIsFit(s: Snapshot, key: string)
    requires Readable(s)
    ensures '\U{0}' !in SortedJoin(At(Contributions(s), key), "|")
  {
    ContributionsAreFit(s);
    hide Contributions, SortedJoin, Readable, Fit, At;
    AtMembers(Contributions(s), key);
    PrintsAreFit(At(Contributions(s), key));
  }

  lemma GroupsAreFit(s: Snapshot)
    requires Readable(s)
    ensures forall t | t in Flat(WorkloadRefs(s), FingerprintF()) :: '\U{0}' !in t
  {
    var cs := Contributions(s);
    GroupTexts(cs);
    FlatMembers(GroupKeys(cs), GroupTextF(cs));
    hide Flat, Contributions, SortedJoin, Readable, GroupedRefs, GroupKeys, FingerprintF, At;
    forall key { GroupIsFit(s, key); }
  }

  lemma ContributionsAreFit(s: Snapshot)
    requires Readable(s)
    ensures forall c | c in Contributions(s) :: Fit(c.fingerprint)
  {
    ContributionPrints(s);
    var r := StreamResolver(s);
    FlatMembers(Contributions(s), PrintF());
    hide Flat, Contributions, ReplicaSetPrintsF, WorkloadPrintF, Readable, Fit, Whole;
    forall c | c in Contributions(s)
      ensures Fit(c.fingerprint)
    {
      assert c.fingerprint in PrintF()(c);
      assert c.fingerprint in Flat(Contributions(s), PrintF());
      PrintIsSound(s, r, c.fingerprint);
    }
  }

  lemma PodTextsAreFit(s: Snapshot)
    requires Readable(s)
    ensures forall t | t in Flat(Flat(s.pods, PodRefF()), FingerprintF()) :: Fit(t)
    ensures forall t | t in Flat(Flat(s.services, ServiceRefF()), FingerprintF()) :: Fit(t)
    ensures forall t | t in Flat(Flat(s.events, EventRefF()), FingerprintF()) :: Fit(t)
  {
    forall p | p in s.pods { PodIsSound(p); }
    forall v | v in s.services { ServiceIsSound(v); }
    forall e | e in s.events { EventIsSound(e); }
    hide Flat, PodFingerprint, ServiceFingerprint, EventFingerprint, Readable, Whole, Fit;
    PrintsOfRefs(s.pods, PodRefF(), PodPrintF());
    PrintsOfRefs(s.services, ServiceRefF(), ServicePrintF());
    PrintsOfRefs(s.events, EventRefF(), EventPrintF());
    PrintsAreWhole(s.pods, PodPrintF());
    PrintsAreWhole(s.services, ServicePrintF());
    PrintsAreWhole(s.events, EventPrintF());
  }

  /** The separator between categories stands in no category's text. */
  lemma JoinedIsFit(s: Snapshot, c: Category)
    requires Readable(s)
    ensures '\U{0}' !in Joined(s, c)
  {
    hide Flat, Readable, SortedJoin, WorkloadRefs, StorageRefs, IdentityRefs, Tag;
    match c
    case Workloads =>
      GroupsAreFit(s);
      TextsAvoidNul(Flat(WorkloadRefs(s), FingerprintF()));
    case Pods =>
      PodTextsAreFit(s);
      PrintsAreFit(Flat(Flat(s.pods, PodRefF()), FingerprintF()));
    case Services =>
      PodTextsAreFit(s);
      PrintsAreFit(Flat(Flat(s.services, ServiceRefF()), FingerprintF()));
    case Storage =>
      StorageTexts(s);
      StoragePrintsAreSound(s);
      PrintsAreFit(StoragePrints(s));
    case Events =>
      PodTextsAreFit(s);
      PrintsAreFit(Flat(Flat(s.events, EventRefF()), FingerprintF()));
    case Identities =>
      IdentityTexts(s);
      IdentityTags(s);
      PrintsAreFit(IdentityPrints(s));
  }

  lemma LastCategory(x: string, y: string, name: string, j: string, k: string)
    requires '\U{0}' !in j && '\U{0}' !in k
    requires x + (name + NUL + j + NUL) == y + (name + NUL + k + NUL)
    ensures j == k && x == y
  {
    var left, right := x + name + NUL + j, y + name + NUL + k;
    assert left + NUL == x + (name + NUL + j + NUL) && right + NUL == y + (name + NUL + k + NUL);
    assert left == (left + NUL)[..|left|] && right == (right + NUL)[..|right|];
    CutLastIsUnique(x + name, y + name, j, k, '\U{0}');
    assert x == (x + name)[..|x|] && y == (y + name)[..|y|];
  }

  lemma {:induction false} CategoriesTell(a: Snapshot, b: Snapshot, cs: seq<Category>)
    requires (forall c :: '\U{0}' !in Joined(a, c) && '\U{0}' !in Joined(b, c)) && Flat(cs, CategoryInputF(a)) == Flat(cs, CategoryInputF(b))
    ensures forall c | c in cs :: Joined(a, c) == Joined(b, c)
  {
    hide Joined, CategoryName;
    if cs != [] {
      var init, c := cs[..|cs| - 1], cs[|cs| - 1];
      LastCategory(Flat(init, CategoryInputF(a)), Flat(init, CategoryInputF(b)), CategoryName(c), Joined(a, c), Joined(b, c));
      CategoriesTell(a, b, init);
      assert cs == init + [c];
    }
  }

  lemma EveryCategoryIsListed(c: Category)
    ensures c in CATEGORIES
  {
    assert CATEGORIES[0] == Workloads && CATEGORIES[1] == Pods && CATEGORIES[2] == Services;
    assert CATEGORIES[3] == Storage && CATEGORIES[4] == Events && CATEGORIES[5] == Identities;
  }

  /** With a slash inside a field, different events have one fingerprint. */
  lemma SlashesHideABoundary(e: KubeEvent)
    ensures EventFingerprint(e.(reason := "x/y", message := "z")) == EventFingerprint(e.(reason := "x", message := "y/z"))
  {
    var a := [e.meta.namespace, e.meta.name, e.meta.uid, e.involvedKind, e.involvedName];
    hide Join;
    assert a + ["x/y", "z"] == [e.meta.namespace, e.meta.name, e.meta.uid, e.involvedKind, e.involvedName, "x/y", "z"];
    assert a + ["x", "y/z"] == [e.meta.namespace, e.meta.name, e.meta.uid, e.involvedKind, e.involvedName, "x", "y/z"];
    JoinSplits(a, ["x/y", "z"]);
    JoinSplits(a, ["x", "y/z"]);
    assert ["x/y", "z"] == ["x/y"] + ["z"] && ["x", "y/z"] == ["x"] + ["y/z"];
    JoinOne("x/y", ["z"]);
    JoinOne("x", ["y/z"]);
    JoinSingle("z");
    JoinSingle("y/z");
    assert "x/y" + "/" + "z" == "x" + "/" + "y/z";
  }

  /** Two snapshots whose fields can be read are hashed over the same input exactly when their watched views are alike but for order. */
  lemma InputsAgreeExactlyWhenViewsDo(a: Snapshot, b: Snapshot)
    requires Readable(a) && Readable(b) && DistinctOwners(OwnersOf(a)) && DistinctOwners(OwnersOf(b))
    ensures TotalInput(a) == TotalInput(b) <==> SameButOrder(Watched(a), Watched(b))
  {
    hide Readable, DistinctOwners, OwnersOf, Watched, SameButOrder, Joined, Flat, CategoryInputF;
    if SameButOrder(Watched(a), Watched(b)) {
      AlikeViewsAgree(a, b);
    }
    if TotalInput(a) == TotalInput(b) {
      forall c
        ensures '\U{0}' !in Joined(a, c) && '\U{0}' !in Joined(b, c)
      {
        JoinedIsFit(a, c);
        JoinedIsFit(b, c);
      }
      CategoriesTell(a, b, CATEGORIES);
      forall c
        ensures Joined(a, c) == Joined(b, c)
      {
        EveryCategoryIsListed(c);
      }
      TextsTellTheView(a, b);
    }
  }

  lemma BindingsFollow(xs: seq<KubeBinding>, ys: seq<KubeBinding>)
    requires Reordered(xs, ys, SameBinding)
    ensures Reordered(Flat(xs, WatchedRoleBindingF()), Flat(ys, WatchedRoleBindingF()), SameBinding)
    ensures Reordered(Flat(xs, WatchedClusterRoleBindingF()), Flat(ys, WatchedClusterRoleBindingF()), SameBinding)
  {
    hide Reordered, Flat, Subjects, SubjectFingerprint;
    forall x, y | SameBinding(x, y)
      ensures SameBinding(WatchedRoleBinding(x), WatchedRoleBinding(y)) && SameBinding(WatchedClusterRoleBinding(x), WatchedClusterRoleBinding(y))
    {
      SameSubjects(x);
      SameSubjects(y);
    }
    hide SameBinding;
    WatchedReordered(xs, ys, WatchedRoleBinding, WatchedRoleBindingF(), SameBinding, SameBinding);
    WatchedReordered(xs, ys, WatchedClusterRoleBinding, WatchedClusterRoleBindingF(), SameBinding, SameBinding);
  }

  /** A new order of the snapshot is a new order of its view. */
  lemma OrderOfTheView(a: Snapshot, b: Snapshot)
    requires SameButOrder(a, b)
    ensures SameButOrder(Watched(a), Watched(b))
  {
    hide Flat, Reordered, WatchedPVCF, WatchedPVF, WatchedClassF, WatchedDriverF, WatchedEventF, WatchedAccountF, WatchedRoleBindingF,
         WatchedClusterRoleBindingF;
    PermutedFlat(a.pvcs, b.pvcs, WatchedPVCF());
    PermutedFlat(a.pvs, b.pvs, WatchedPVF());
    PermutedFlat(a.storageClasses, b.storageClasses, WatchedClassF());
    PermutedFlat(a.csiDrivers, b.csiDrivers, WatchedDriverF());
    PermutedFlat(a.events, b.events, WatchedEventF());
    PermutedFlat(a.serviceAccounts, b.serviceAccounts, WatchedAccountF());
    BindingsFollow(a.roleBindings, b.roleBindings);
    BindingsFollow(a.clusterRoleBindings, b.clusterRoleBindings);
  }
}
