/** The links of service accounts in a rebuild, and after an update, say what the snapshot says. */
module IdentityLinks {
  import opened Identity
  import opened Strings
  import opened GraphModel
  import opened Resources
  import opened Csi
  import opened Builder
  import opened RebuildSections
  import opened SnapshotLinks
  import opened LinkPasses
  import opened PodLinks
  import SR = StorageRefinement
  import Accounts = IdentityReconciler

  // ---- One binding ----

  lemma {:induction false} SubjectsHave(id: CanonicalID, b: KubeBinding, defaultNamespace: string, accounts: map<string, CanonicalID>, n: nat, k: EdgeKey)
    requires n <= |b.subjectKinds|
    ensures HasEdge(SubjectEdges(id, b, defaultNamespace, accounts, n), k) <==>
      k.kind == BoundByRoleBinding && k.to == id && exists i: nat | i < n :: Names(b, i, defaultNamespace, accounts, k.from)
  {
    hide HasEdge, Names;
    if n > 0 {
      SubjectsHave(id, b, defaultNamespace, accounts, n - 1, k);
      SubjectHas(id, b, defaultNamespace, accounts, n, k);
      if Names(b, n - 1, defaultNamespace, accounts, k.from) {
        var i: nat := n - 1;
        assert i < n && Names(b, i, defaultNamespace, accounts, k.from);
      }
    } else {
      OneHas(NewEdge(id, id, BoundByRoleBinding), k);
    }
  }

  lemma SubjectHas(id: CanonicalID, b: KubeBinding, defaultNamespace: string, accounts: map<string, CanonicalID>, n: nat, k: EdgeKey)
    requires 0 < n <= |b.subjectKinds|
    ensures HasEdge(SubjectEdges(id, b, defaultNamespace, accounts, n), k) <==>
      HasEdge(SubjectEdges(id, b, defaultNamespace, accounts, n - 1), k)
      || (k.kind == BoundByRoleBinding && k.to == id && Names(b, n - 1, defaultNamespace, accounts, k.from))
  {
    hide HasEdge, EqualFoldAscii, TrimSpace, NsName;
    var es := SubjectEdges(id, b, defaultNamespace, accounts, n - 1);
    var listed := SubjectValue(b.subjectNamespaces, n - 1);
    var namespace, name := if listed != "" then listed else defaultNamespace, SubjectValue(b.subjectNames, n - 1);
    if NsName(namespace, name) in accounts {
      LastOne(es, NewEdge(accounts[NsName(namespace, name)], id, BoundByRoleBinding), k);
    }
    assert es + [] == es;
  }

  /** Subject i looks the account up under its own namespace or the default one. */
  ghost predicate Names(b: KubeBinding, i: nat, defaultNamespace: string, accounts: map<string, CanonicalID>, a: CanonicalID) {
    var namespace := if Trimmed(b.subjectNamespaces, i) != "" then Trimmed(b.subjectNamespaces, i) else defaultNamespace;
    var key := NsName(namespace, Trimmed(b.subjectNames, i));
    && i < |b.subjectKinds| && EqualFoldAscii(TrimSpace(b.subjectKinds[i]), "ServiceAccount")
    && namespace != "" && Trimmed(b.subjectNames, i) != "" && key in accounts && accounts[key] == a
  }

  lemma NamesTheSubject(c: Text, s: Snapshot, b: KubeBinding, i: nat, defaultNamespace: string, a: CanonicalID)
    requires Namespaced(s.serviceAccounts, NamedMeta(), ServiceAccountIDF(c))
    ensures Names(b, i, defaultNamespace, ServiceAccountIDs(c, s.serviceAccounts), a) <==>
      exists account | account in s.serviceAccounts :: ServiceAccountID(c, account) == a && IsSubject(b, i, defaultNamespace, account)
  {
    hide Index, NsName, ServiceAccountID, TrimSpace, EqualFoldAscii, Namespaced;
    var namespace := if Trimmed(b.subjectNamespaces, i) != "" then Trimmed(b.subjectNamespaces, i) else defaultNamespace;
    NamespacedHas(s.serviceAccounts, NamedKeyF(), NamedMeta(), ServiceAccountIDF(c), namespace, Trimmed(b.subjectNames, i), a);
    assert forall x: KubeNamed :: NamedMeta()(x) == x.meta && ServiceAccountIDF(c)(x) == ServiceAccountID(c, x);
  }

  lemma SubjectsSay(c: Text, s: Snapshot, id: CanonicalID, b: KubeBinding, defaultNamespace: string, k: EdgeKey)
    requires Namespaced(s.serviceAccounts, NamedMeta(), ServiceAccountIDF(c)) && k.kind == BoundByRoleBinding
    ensures HasEdge(SubjectEdges(id, b, defaultNamespace, ServiceAccountIDs(c, s.serviceAccounts), |b.subjectKinds|), k) <==>
      k.to == id && exists account, i: nat | account in s.serviceAccounts ::
        ServiceAccountID(c, account) == k.from && IsSubject(b, i, defaultNamespace, account)
  {
    hide HasEdge, SubjectEdges, ServiceAccountIDs, ServiceAccountID, Namespaced, Names;
    var accounts := ServiceAccountIDs(c, s.serviceAccounts);
    SubjectsHave(id, b, defaultNamespace, accounts, |b.subjectKinds|, k);
    forall i: nat { NamesTheSubject(c, s, b, i, defaultNamespace, k.from); }
    assert forall account, i: nat | IsSubject(b, i, defaultNamespace, account) :: i < |b.subjectKinds|;
    hide IsSubject;
    if i: nat :| i < |b.subjectKinds| && Names(b, i, defaultNamespace, accounts, k.from) {
      var account :| account in s.serviceAccounts && ServiceAccountID(c, account) == k.from && IsSubject(b, i, defaultNamespace, account);
    }
    if account, i: nat :| account in s.serviceAccounts && ServiceAccountID(c, account) == k.from && IsSubject(b, i, defaultNamespace, account) {
      assert Names(b, i, defaultNamespace, accounts, k.from);
    }
  }

  // ---- The two passes over bindings ----

  /** A subject of a RoleBinding with the identifier. */
  ghost predicate BoundByOne(c: Text, s: Snapshot, a: CanonicalID, b: CanonicalID) {
    exists rb, account, i: nat | rb in s.roleBindings && account in s.serviceAccounts ::
      RoleBindingID(c, rb) == b && ServiceAccountID(c, account) == a && IsSubject(rb, i, rb.meta.namespace, account)
  }

  ghost predicate BoundClusterWide(c: Text, s: Snapshot, a: CanonicalID, b: CanonicalID) {
    exists crb, account, i: nat | crb in s.clusterRoleBindings && account in s.serviceAccounts ::
      ClusterRoleBindingID(c, crb) == b && ServiceAccountID(c, account) == a && IsSubject(crb, i, "", account)
  }

  lemma BindingIsListed(c: Text, s: Snapshot, b: KubeBinding)
    requires Namespaced(s.roleBindings, BindingMeta(), RoleBindingIDF(c)) && b in s.roleBindings
    ensures MetaKey(b.meta) in RoleBindingIDs(c, s.roleBindings) && RoleBindingIDs(c, s.roleBindings)[MetaKey(b.meta)] == RoleBindingID(c, b)
  {
    hide Index, RoleBindingID, NsName;
    forall x | x in s.roleBindings && BindingKeyF()(x) == BindingKeyF()(b)
      ensures RoleBindingIDF(c)(x) == RoleBindingIDF(c)(b)
    {
      assert BindingMeta()(x) == x.meta && BindingMeta()(b) == b.meta;
      NsNameTells(x.meta.namespace, x.meta.name, b.meta.namespace, b.meta.name);
    }
    IndexIsExact(s.roleBindings, BindingKeyF(), RoleBindingIDF(c), b);
  }

  lemma ClusterBindingIsListed(c: Text, s: Snapshot, b: KubeBinding)
    requires ClusterWide(s.clusterRoleBindings, BindingMeta(), ClusterRoleBindingIDF(c)) && b in s.clusterRoleBindings
    ensures b.meta.name in ClusterRoleBindingIDs(c, s.clusterRoleBindings)
            && ClusterRoleBindingIDs(c, s.clusterRoleBindings)[b.meta.name] == ClusterRoleBindingID(c, b)
  {
    hide Index, ClusterRoleBindingID;
    forall x | x in s.clusterRoleBindings && BindingNameF()(x) == BindingNameF()(b)
      ensures ClusterRoleBindingIDF(c)(x) == ClusterRoleBindingIDF(c)(b)
    {
      assert BindingMeta()(x) == x.meta && BindingMeta()(b) == b.meta;
    }
    IndexIsExact(s.clusterRoleBindings, BindingNameF(), ClusterRoleBindingIDF(c), b);
  }

  lemma RoleBindingPassSays(c: Text, s: Snapshot, k: EdgeKey)
    requires BindingNamesIdentify(c, s) && k.kind == BoundByRoleBinding
    ensures HasEdge(Flat(s.roleBindings, RoleBindingEdgesF(c, s)), k) <==> BoundByOne(c, s, k.from, k.to)
  {
    hide Flat, HasEdge, SubjectEdges, RoleBindingID, ServiceAccountID, IsSubject, RoleBindingIDs, ServiceAccountIDs, NsName, Namespaced, ClusterWide;
    FlatHas(s.roleBindings, RoleBindingEdgesF(c, s), k);
    forall rb | rb in s.roleBindings
      ensures HasEdge(RoleBindingEdgesF(c, s)(rb), k) <==> RoleBindingID(c, rb) == k.to && exists account, i: nat | account in s.serviceAccounts ::
        ServiceAccountID(c, account) == k.from && IsSubject(rb, i, rb.meta.namespace, account)
    {
      BindingIsListed(c, s, rb);
      SubjectsSay(c, s, RoleBindingID(c, rb), rb, rb.meta.namespace, k);
    }
    hide RoleBindingEdgesF;
  }

  lemma ClusterRoleBindingPassSays(c: Text, s: Snapshot, k: EdgeKey)
    requires BindingNamesIdentify(c, s) && k.kind == BoundByRoleBinding
    ensures HasEdge(Flat(s.clusterRoleBindings, ClusterRoleBindingEdgesF(c, s)), k) <==> BoundClusterWide(c, s, k.from, k.to)
  {
    hide Flat, HasEdge, SubjectEdges, ClusterRoleBindingID, ServiceAccountID, IsSubject, ClusterRoleBindingIDs, ServiceAccountIDs, Namespaced, ClusterWide;
    FlatHas(s.clusterRoleBindings, ClusterRoleBindingEdgesF(c, s), k);
    forall crb | crb in s.clusterRoleBindings
      ensures HasEdge(ClusterRoleBindingEdgesF(c, s)(crb), k) <==> ClusterRoleBindingID(c, crb) == k.to && exists account, i: nat | account in s.serviceAccounts ::
        ServiceAccountID(c, account) == k.from && IsSubject(crb, i, "", account)
    {
      ClusterBindingIsListed(c, s, crb);
      SubjectsSay(c, s, ClusterRoleBindingID(c, crb), crb, "", k);
    }
    hide ClusterRoleBindingEdgesF;
  }

  lemma BindsSplits(c: Text, s: Snapshot, a: CanonicalID, b: CanonicalID)
    ensures Binds(c, s, a, b) <==> BoundByOne(c, s, a, b) || BoundClusterWide(c, s, a, b)
  {
    hide IsSubject, RoleBindingID, ClusterRoleBindingID, ServiceAccountID;
  }

  // ---- The theorems ----

  /** A rebuild binds exactly the accounts the bindings name, each subject by its own namespace or its RoleBinding's. */
  lemma RebuildBindsTheSubjects(c: Text, rules: seq<CSIRule>, x: Inferred, s: Snapshot, order: seq<string>, evidence: seq<Edge>,
                                a: CanonicalID, b: CanonicalID)
    requires InferredShape(x) && EdgesIn(evidence, {AffectedByWebhook}) && BindingNamesIdentify(c, s)
    ensures EdgeKey(a, BoundByRoleBinding, b) in Rebuilt(c, rules, x, s, order, evidence).edges <==> Binds(c, s, a, b)
  {
    hide Rebuilt, Flat, HasEdge, PodEdgesF, ImageEdgesF, ServiceEdgesF, StorageEdges, RoleBindingEdgesF, ClusterRoleBindingEdgesF, Binds, BoundByOne,
         BoundClusterWide, BindingNamesIdentify;
    var k := EdgeKey(a, BoundByRoleBinding, b);
    RebuiltHas(c, rules, x, s, order, evidence, k);
    RoleBindingPassSays(c, s, k);
    ClusterRoleBindingPassSays(c, s, k);
    BindsSplits(c, s, a, b);
  }

  /** From any prior graph, an identity update binds exactly those accounts, and leaves every pod running as the account it names. */
  lemma UpdateBindsTheSubjects(g: Graph, c: Text, s: Snapshot, a: CanonicalID, b: CanonicalID)
    requires g.Valid() && PodNamesIdentify(c, s) && BindingNamesIdentify(c, s)
    ensures EdgeKey(a, BoundByRoleBinding, b) in Accounts.Reconciled(g, c, s).edges <==> Binds(c, s, a, b)
    ensures EdgeKey(a, UsesServiceAccount, b) in Accounts.Reconciled(g, c, s).edges <==> RunsAs(c, s, a, b)
  {
    hide Rebuilt, Accounts.Reconciled, Binds, RunsAs, Only, PodNamesIdentify, BindingNamesIdentify, SR.UniquePods;
    var x := Inferred([], [], []);
    PodsAreUnique(c, s);
    Accounts.IdentityUpdateMatchesRebuild(g, c, [], x, s, [], []);
    RebuildBindsTheSubjects(c, [], x, s, [], [], a, b);
    RebuildShowsPodLinks(c, [], x, s, [], [], EdgeKey(a, UsesServiceAccount, b));
    var narrow, full := Accounts.Reconciled(g, c, s).edges, Rebuilt(c, [], x, s, [], []).edges;
    OnlyAgrees(narrow, full, Accounts.IdentityKey(), EdgeKey(a, BoundByRoleBinding, b));
    OnlyAgrees(narrow, full, Accounts.IdentityKey(), EdgeKey(a, UsesServiceAccount, b));
  }
}
