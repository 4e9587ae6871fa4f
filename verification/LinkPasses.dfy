/** Where an edge of a rebuild comes from: the pass that contributes it and the object it was made for. */
module LinkPasses {
  import opened Identity
  import opened GraphModel
  import opened Resources
  import opened Csi
  import opened Builder
  import opened RebuildSections

  // ---- Membership ----

  lemma HasInMap(es: seq<Edge>, k: EdgeKey)
    ensures k in ToEdges(es) <==> HasEdge(es, k)
  {
    ToEdgesMembers(es);
  }

  lemma FlatHas<A>(xs: seq<A>, f: A -> seq<Edge>, k: EdgeKey)
    ensures HasEdge(Flat(xs, f), k) <==> exists x | x in xs :: HasEdge(f(x), k)
    ensures k in ToEdges(Flat(xs, f)) <==> exists x | x in xs :: HasEdge(f(x), k)
  {
    hide ToEdges, Flat;
    HasInMap(Flat(xs, f), k);
    FlatMembers(xs, f);
  }

  lemma HasAppend(a: seq<Edge>, b: seq<Edge>, k: EdgeKey)
    ensures HasEdge(a + b, k) <==> HasEdge(a, k) || HasEdge(b, k)
  {
    if HasEdge(a, k) {
      var e :| e in a && e.Triple() == k;
      assert e in a + b;
    }
    if HasEdge(b, k) {
      var e :| e in b && e.Triple() == k;
      assert e in a + b;
    }
  }

  lemma NotAmong(es: seq<Edge>, kinds: set<EdgeKind>, k: EdgeKey)
    requires EdgesIn(es, kinds) && k.kind !in kinds
    ensures !HasEdge(es, k) && k !in ToEdges(es)
  {
    HasInMap(es, k);
  }

  lemma OneHas(e: Edge, k: EdgeKey)
    ensures HasEdge([e], k) <==> e.Triple() == k
    ensures !HasEdge([], k)
  {
    assert e in [e];
  }

  lemma LastOne(es: seq<Edge>, e: Edge, k: EdgeKey)
    ensures HasEdge(es + [e], k) <==> HasEdge(es, k) || e.Triple() == k
  {
    HasAppend(es, [e], k);
    OneHas(e, k);
  }

  /** Maps that agree within a scope agree on a key of the scope. */
  lemma OnlyAgrees(a: EdgeMap, b: EdgeMap, p: EdgeKey -> bool, k: EdgeKey)
    requires Only(a, p) == Only(b, p) && p(k)
    ensures k in a <==> k in b
  {
    assert k in Only(a, p) <==> k in a;
    assert k in Only(b, p) <==> k in b;
  }

  // ---- Name maps ----

  /** A name map holds the identifier of the object of that name, when objects of one name share it. */
  lemma IndexHas<T>(xs: seq<T>, key: T -> string, id: T -> CanonicalID, k: string, t: CanonicalID)
    requires forall x, y | x in xs && y in xs && key(x) == k && key(y) == k :: id(x) == id(y)
    ensures k in Index(xs, key, id) && Index(xs, key, id)[k] == t <==> exists x | x in xs :: key(x) == k && id(x) == t
  {
    IndexMembers(xs, key, id);
    hide Index;
    if x :| x in xs && key(x) == k && id(x) == t {
      var y :| y in xs && key(y) == k && id(y) == Index(xs, key, id)[k];
    }
  }

  // ---- The passes of a rebuild ----

  ghost predicate HasEither(a: seq<Edge>, b: seq<Edge>, k: EdgeKey) { HasEdge(a, k) || HasEdge(b, k) }

  lemma BeforeStorageHas(c: Text, x: Inferred, s: Snapshot, k: EdgeKey)
    requires InferredShape(x)
    ensures var es := EdgesBeforeStorage(c, x, s);
            && (k.kind == UsesImage ==> (HasEdge(es, k) <==> HasEdge(Flat(s.pods, ImageEdgesF(c)), k)))
            && (k.kind == ReportedByEvent ==> (HasEdge(es, k) <==> HasEdge(Flat(s.events, EventEdgesF(c, s)), k)))
            && (k.kind in POD_EDGES ==> (HasEdge(es, k) <==> HasEdge(Flat(s.pods, PodEdgesF(c, s)), k)))
            && (k.kind == BoundByRoleBinding ==> (HasEdge(es, k) <==>
                  HasEither(Flat(s.roleBindings, RoleBindingEdgesF(c, s)), Flat(s.clusterRoleBindings, ClusterRoleBindingEdgesF(c, s)), k)))
            && (k.kind == ControlledBy ==> (HasEdge(es, k) <==> HasEdge(Flat(s.workloads, WorkloadEdgesF(c, s)), k)))
            && (k.kind in STORAGE_EDGES + {SelectsPod, AffectedByWebhook} ==> !HasEdge(es, k))
  {
    PassKinds(c, s);
    hide Flat, HasEdge, EdgesIn, ImageEdgesF, EventEdgesF, PodEdgesF, RoleBindingEdgesF, ClusterRoleBindingEdgesF, WorkloadEdgesF, ServiceEdgesF;
    var images, events, pods := Flat(s.pods, ImageEdgesF(c)), Flat(s.events, EventEdgesF(c, s)), Flat(s.pods, PodEdgesF(c, s));
    var rb, crb := Flat(s.roleBindings, RoleBindingEdgesF(c, s)), Flat(s.clusterRoleBindings, ClusterRoleBindingEdgesF(c, s));
    var workloads := Flat(s.workloads, WorkloadEdgesF(c, s));
    EightPasses(images, x.helmEdges, events, pods, rb, crb, workloads, x.controllerEdges, k);
    KindDecides(images, {UsesImage}, k);
    KindDecides(x.helmEdges, HELM_EDGES, k);
    KindDecides(events, {ReportedByEvent}, k);
    KindDecides(pods, POD_EDGES, k);
    KindDecides(rb, {BoundByRoleBinding}, k);
    KindDecides(crb, {BoundByRoleBinding}, k);
    KindDecides(workloads, {ControlledBy}, k);
    KindDecides(x.controllerEdges, CONTROLLER_EDGES, k);
  }

  lemma KindDecides(es: seq<Edge>, kinds: set<EdgeKind>, k: EdgeKey)
    requires EdgesIn(es, kinds)
    ensures k.kind !in kinds ==> !HasEdge(es, k)
  {
  }

  lemma EightPasses(a: seq<Edge>, b: seq<Edge>, d: seq<Edge>, e: seq<Edge>, f: seq<Edge>, g: seq<Edge>, h: seq<Edge>, i: seq<Edge>, k: EdgeKey)
    ensures HasEdge(a + b + d + e + f + g + h + i, k) <==>
      HasEdge(a, k) || HasEdge(b, k) || HasEdge(d, k) || HasEdge(e, k) || HasEdge(f, k) || HasEdge(g, k) || HasEdge(h, k) || HasEdge(i, k)
  {
    hide HasEdge;
    HasAppend(a, b, k);
    HasAppend(a + b, d, k);
    HasAppend(a + b + d, e, k);
    HasAppend(a + b + d + e, f, k);
    HasAppend(a + b + d + e + f, g, k);
    HasAppend(a + b + d + e + f + g, h, k);
    HasAppend(a + b + d + e + f + g + h, i, k);
  }

  /** An edge of a rebuild is contributed by the pass for its kind. */
  lemma RebuiltHas(c: Text, rules: seq<CSIRule>, x: Inferred, s: Snapshot, order: seq<string>, evidence: seq<Edge>, k: EdgeKey)
    requires InferredShape(x) && EdgesIn(evidence, {AffectedByWebhook})
    ensures var edges := Rebuilt(c, rules, x, s, order, evidence).edges;
            && (k.kind == UsesImage ==> (k in edges <==> HasEdge(Flat(s.pods, ImageEdgesF(c)), k)))
            && (k.kind == ReportedByEvent ==> (k in edges <==> HasEdge(Flat(s.events, EventEdgesF(c, s)), k)))
            && (k.kind in POD_EDGES ==> (k in edges <==> HasEdge(Flat(s.pods, PodEdgesF(c, s)), k)))
            && (k.kind == BoundByRoleBinding ==> (k in edges <==>
                  HasEither(Flat(s.roleBindings, RoleBindingEdgesF(c, s)), Flat(s.clusterRoleBindings, ClusterRoleBindingEdgesF(c, s)), k)))
            && (k.kind == ControlledBy ==> (k in edges <==> HasEdge(Flat(s.workloads, WorkloadEdgesF(c, s)), k)))
            && (k.kind == SelectsPod ==> (k in edges <==> HasEdge(Flat(s.services, ServiceEdgesF(c, s)), k)))
            && (k.kind == AffectedByWebhook ==> (k in edges <==> HasEdge(evidence, k)))
            && (k.kind in STORAGE_EDGES ==> (k in edges <==>
                  HasEdge(StorageEdges(StorageMapsOf(c, rules, s), rules, s, Flat(s.pods, PodNodeF(c)), order, BuildDriverNames(c, rules, x, s)), k)))
  {
    hide Flat, HasEdge, HasEither, EdgesIn, ImageEdgesF, EventEdgesF, PodEdgesF, RoleBindingEdgesF, ClusterRoleBindingEdgesF, WorkloadEdgesF,
         ServiceEdgesF, EdgesBeforeStorage, StorageEdges, StorageMapsOf, BuildDriverNames, PodNodeF, InferredShape, Rebuilt;
    BeforeStorageHas(c, x, s, k);
    RebuiltParts(c, rules, x, s, order, evidence, k);
  }

  /** The four parts of a rebuild's list of edges. */
  lemma RebuiltParts(c: Text, rules: seq<CSIRule>, x: Inferred, s: Snapshot, order: seq<string>, evidence: seq<Edge>, k: EdgeKey)
    requires InferredShape(x) && EdgesIn(evidence, {AffectedByWebhook})
    ensures var storage := StorageEdges(StorageMapsOf(c, rules, s), rules, s, Flat(s.pods, PodNodeF(c)), order, BuildDriverNames(c, rules, x, s));
            var services := Flat(s.services, ServiceEdgesF(c, s));
            && (k in Rebuilt(c, rules, x, s, order, evidence).edges <==>
                  HasEdge(EdgesBeforeStorage(c, x, s), k) || HasEdge(storage, k) || HasEdge(services, k) || HasEdge(evidence, k))
            && (k.kind !in STORAGE_EDGES ==> !HasEdge(storage, k)) && (k.kind != SelectsPod ==> !HasEdge(services, k))
            && (k.kind != AffectedByWebhook ==> !HasEdge(evidence, k))
  {
    PassKinds(c, s);
    InfraPodsAreThePods(c, rules, x, s);
    hide Flat, HasEdge, EdgesIn, ImageEdgesF, EventEdgesF, PodEdgesF, RoleBindingEdgesF, ClusterRoleBindingEdgesF, WorkloadEdgesF,
         ServiceEdgesF, EdgesBeforeStorage, StorageEdges, StorageMapsOf, BuildNodes, BuildDriverNames, PodsAmong, PodNodeF, InferredShape, Rebuilt;
    var storage := StorageEdges(StorageMapsOf(c, rules, s), rules, s, Flat(s.pods, PodNodeF(c)), order, BuildDriverNames(c, rules, x, s));
    var before, services := EdgesBeforeStorage(c, x, s), Flat(s.services, ServiceEdgesF(c, s));
    StorageEdgeKinds(StorageMapsOf(c, rules, s), rules, s, Flat(s.pods, PodNodeF(c)), order, BuildDriverNames(c, rules, x, s));
    KindDecides(storage, STORAGE_EDGES, k);
    KindDecides(services, {SelectsPod}, k);
    KindDecides(evidence, {AffectedByWebhook}, k);
    RebuiltIsTheList(c, rules, x, s, order, evidence, k);
    HasAppend(before, storage, k);
    HasAppend(before + storage, services, k);
    HasAppend(before + storage + services, evidence, k);
  }

  lemma RebuiltIsTheList(c: Text, rules: seq<CSIRule>, x: Inferred, s: Snapshot, order: seq<string>, evidence: seq<Edge>, k: EdgeKey)
    ensures k in Rebuilt(c, rules, x, s, order, evidence).edges <==> HasEdge(BuildEdges(c, rules, x, s, order, evidence), k)
  {
    hide BuildEdges, BuildNodes, ToEdges, ToNodes, HasEdge;
    HasInMap(BuildEdges(c, rules, x, s, order, evidence), k);
  }

  // ---- One pod ----

  /** One pod's edges, kind by kind. */
  lemma PodEdgesHave(m: PodMaps, id: CanonicalID, p: KubePod, k: EdgeKey)
    ensures var es := PodEdges(m, id, p);
            && (k.kind == ScheduledOn ==> (HasEdge(es, k) <==> HasEdge(ScheduledEdges(id, p, m.nodes), k)))
            && (k.kind == UsesConfigMap ==> (HasEdge(es, k) <==> HasEdge(RefEdges(id, UsesConfigMap, p.meta.namespace, p.configMapRefs, m.configMaps), k)))
            && (k.kind == UsesSecret ==> (HasEdge(es, k) <==> HasEdge(RefEdges(id, UsesSecret, p.meta.namespace, p.secretRefs, m.secrets), k)))
            && (k.kind == MountsPVC ==> (HasEdge(es, k) <==> HasEdge(RefEdges(id, MountsPVC, p.meta.namespace, p.pvcRefs, m.pvcs), k)))
            && (k.kind == UsesServiceAccount ==> (HasEdge(es, k) <==> HasEdge(ServiceAccountEdges(id, p, m.accounts), k)))
            && (k.kind in {ManagedBy, OwnsPod} ==> (HasEdge(es, k) <==> HasEdge(OwnerEdges(id, PodTargets(m, p)), k)))
  {
    PodPartKinds(m, id, p);
    hide HasEdge, EdgesIn, ScheduledEdges, RefEdges, ServiceAccountEdges, OwnerEdges, PodTargets;
    var scheduled, owners := ScheduledEdges(id, p, m.nodes), OwnerEdges(id, PodTargets(m, p));
    var cms, secrets := RefEdges(id, UsesConfigMap, p.meta.namespace, p.configMapRefs, m.configMaps),
                        RefEdges(id, UsesSecret, p.meta.namespace, p.secretRefs, m.secrets);
    var pvcs, account := RefEdges(id, MountsPVC, p.meta.namespace, p.pvcRefs, m.pvcs), ServiceAccountEdges(id, p, m.accounts);
    HasAppend(scheduled, cms, k);
    HasAppend(scheduled + cms, secrets, k);
    HasAppend(scheduled + cms + secrets, pvcs, k);
    HasAppend(scheduled + cms + secrets + pvcs, account, k);
    HasAppend(scheduled + cms + secrets + pvcs + account, owners, k);
    KindDecides(scheduled, {ScheduledOn}, k);
    KindDecides(cms, {UsesConfigMap}, k);
    KindDecides(secrets, {UsesSecret}, k);
    KindDecides(pvcs, {MountsPVC}, k);
    KindDecides(account, {UsesServiceAccount}, k);
    KindDecides(owners, {ManagedBy, OwnsPod}, k);
  }

  lemma PodPartKinds(m: PodMaps, id: CanonicalID, p: KubePod)
    ensures EdgesIn(ScheduledEdges(id, p, m.nodes), {ScheduledOn})
    ensures EdgesIn(RefEdges(id, UsesConfigMap, p.meta.namespace, p.configMapRefs, m.configMaps), {UsesConfigMap})
    ensures EdgesIn(RefEdges(id, UsesSecret, p.meta.namespace, p.secretRefs, m.secrets), {UsesSecret})
    ensures EdgesIn(RefEdges(id, MountsPVC, p.meta.namespace, p.pvcRefs, m.pvcs), {MountsPVC})
    ensures EdgesIn(ServiceAccountEdges(id, p, m.accounts), {UsesServiceAccount})
    ensures EdgesIn(OwnerEdges(id, PodTargets(m, p)), {ManagedBy, OwnsPod})
  {
    hide RefEdges, OwnerEdges, PodTargets, NsName;
  }

  // ---- One contribution ----

  lemma {:induction false} RefsHave(from: CanonicalID, kind: EdgeKind, namespace: Text, refs: seq<Text>, ids: map<string, CanonicalID>, k: EdgeKey)
    ensures HasEdge(RefEdges(from, kind, namespace, refs, ids), k) <==>
      k.from == from && k.kind == kind && exists ref | ref in refs :: NsName(namespace, ref) in ids && ids[NsName(namespace, ref)] == k.to
  {
    hide NsName;
    if refs != [] {
      var init, last := refs[..|refs| - 1], refs[|refs| - 1];
      RefsHave(from, kind, namespace, init, ids, k);
      assert refs == init + [last];
      var key, es := NsName(namespace, last), RefEdges(from, kind, namespace, init, ids);
      if key in ids {
        LastOne(es, NewEdge(from, ids[key], kind), k);
      } else {
        assert es + [] == es;
      }
      assert forall ref :: ref in refs <==> ref in init || ref == last;
    }
  }

  lemma {:induction false} ImagesHave(c: Text, podID: CanonicalID, images: seq<Text>, k: EdgeKey)
    ensures HasEdge(ImageEdges(c, podID, images), k) <==>
      k.from == podID && k.kind == UsesImage && exists image | image in images :: ImageID(c, image) == k.to
  {
    hide ImageID;
    if images != [] {
      var init, last := images[..|images| - 1], images[|images| - 1];
      ImagesHave(c, podID, init, k);
      assert images == init + [last];
      LastOne(ImageEdges(c, podID, init), NewEdge(podID, ImageID(c, last), UsesImage), k);
      assert forall image :: image in images <==> image in init || image == last;
    }
  }

  lemma ScheduledHas(id: CanonicalID, p: KubePod, nodeIDs: map<string, CanonicalID>, k: EdgeKey)
    ensures HasEdge(ScheduledEdges(id, p, nodeIDs), k) <==>
      k.from == id && k.kind == ScheduledOn && p.nodeName != "" && p.nodeName in nodeIDs && nodeIDs[p.nodeName] == k.to
  {
    if p.nodeName in nodeIDs {
      OneHas(NewEdge(id, nodeIDs[p.nodeName], ScheduledOn), k);
    }
  }

  lemma AccountHas(id: CanonicalID, p: KubePod, accounts: map<string, CanonicalID>, k: EdgeKey)
    ensures var key := NsName(p.meta.namespace, p.serviceAccount);
            HasEdge(ServiceAccountEdges(id, p, accounts), k) <==>
              k.from == id && k.kind == UsesServiceAccount && p.serviceAccount != "" && key in accounts && accounts[key] == k.to
  {
    hide NsName;
    var key := NsName(p.meta.namespace, p.serviceAccount);
    if key in accounts {
      OneHas(NewEdge(id, accounts[key], UsesServiceAccount), k);
    }
  }

  // ---- Webhook evidence ----

  lemma EvidenceHas(evidence: seq<Edge>, blocked: seq<CanonicalID>, webhooks: set<CanonicalID>, w: CanonicalID)
    requires IsEvidence(evidence, blocked, webhooks)
    ensures (exists h :: HasEdge(evidence, EdgeKey(w, AffectedByWebhook, h))) <==> webhooks != {} && w in blocked
    ensures forall h | HasEdge(evidence, EdgeKey(w, AffectedByWebhook, h)) :: h in webhooks
  {
    if webhooks != {} && w in blocked {
      var i :| 0 <= i < |blocked| && blocked[i] == w;
      assert evidence[i] in evidence && evidence[i].Triple() == EdgeKey(w, AffectedByWebhook, evidence[i].to);
      assert HasEdge(evidence, EdgeKey(w, AffectedByWebhook, evidence[i].to));
    }
    forall h | HasEdge(evidence, EdgeKey(w, AffectedByWebhook, h))
      ensures h in webhooks && w in blocked
    {
      var e :| e in evidence && e.Triple() == EdgeKey(w, AffectedByWebhook, h);
      var i :| 0 <= i < |evidence| && evidence[i] == e;
    }
  }
}
