/** The links of events in a rebuild, and of one event after its update, say what the snapshot says. */
module EventLinks {
  import opened Identity
  import opened Strings
  import opened GraphModel
  import opened Resources
  import opened Csi
  import opened Builder
  import opened RebuildSections
  import opened SnapshotLinks
  import opened LinkPasses
  import opened PodLinks
  import opened Changes
  import opened KernelLoops
  import Events = EventReconciler

  // ---- What an event is about ----

  /** A map holds under a kind and UID what the list says of them. */
  ghost predicate HoldsExactly(m: map<string, CanonicalID>, k: string, said: set<CanonicalID>) {
    (k in m <==> said != {}) && forall t :: k in m && m[k] == t <==> t in said
  }

  lemma KeyTells(kind1: string, uid1: string, kind2: string, uid2: string)
    requires '/' !in kind1 && '/' !in kind2
    ensures kind1 + "/" + uid1 == kind2 + "/" + uid2 <==> kind1 == kind2 && uid1 == uid2
  {
    if kind1 + "/" + uid1 == kind2 + "/" + uid2 {
      CutIsUnique(kind1, kind2, uid1, uid2, '/');
    }
  }

  /** The map of one list. */
  lemma PartHolds<T(!new)>(xs: seq<T>, key: T -> string, id: T -> CanonicalID, k: string)
    requires forall x, y | x in xs && y in xs && key(x) == k && key(y) == k :: id(x) == id(y)
    ensures HoldsExactly(Index(xs, key, id), k, set x | x in xs && key(x) == k :: id(x))
  {
    hide Index;
    var said := set x | x in xs && key(x) == k :: id(x);
    forall t { IndexHas(xs, key, id, k, t); }
    if k in Index(xs, key, id) {
      assert Index(xs, key, id)[k] in said;
    }
    if said != {} {
      var t :| t in said;
      assert k in Index(xs, key, id);
    }
  }

  /** The map of several lists whose members agree. */
  lemma UnionHolds(a: map<string, CanonicalID>, sa: set<CanonicalID>, b: map<string, CanonicalID>, sb: set<CanonicalID>, k: string)
    requires HoldsExactly(a, k, sa) && HoldsExactly(b, k, sb) && forall i, j | i in sa && j in sb :: i == j
    ensures HoldsExactly(a + b, k, sa + sb)
  {
    if k in b {
      assert b[k] in sb;
      assert forall i | i in sa :: i == b[k];
    }
    forall t
      ensures k in a + b && (a + b)[k] == t <==> t in sa + sb
    {
      if k in b && t in sa { assert t == b[k]; }
    }
  }

  /** The identifiers of listed objects of the kind and UID, list by list. */
  ghost function Said(c: Text, s: Snapshot, k: string): seq<set<CanonicalID>> {
    [set x | x in s.workloads && WorkloadUIDF()(x) == k :: WorkloadID(c, x), set x | x in s.pods && PodUIDF()(x) == k :: PodID(c, x),
     set x | x in s.nodes && NodeUIDF()(x) == k :: NodeID(c, x), set x | x in s.services && ServiceUIDF()(x) == k :: ServiceID(c, x),
     set x | x in s.serviceAccounts && AccountUIDF()(x) == k :: ServiceAccountID(c, x), set x | x in s.pvcs && PVCUIDF()(x) == k :: PVCID(c, x),
     set x | x in s.pvs && PVUIDF()(x) == k :: PVID(c, x)]
  }

  lemma SaidIsObject(c: Text, s: Snapshot, kind: string, uid: string, id: CanonicalID)
    requires (forall w | w in s.workloads :: '/' !in w.controllerKind) && '/' !in kind
    ensures var said := Said(c, s, kind + "/" + uid);
            IsObject(c, s, kind, uid, id) <==>
              id in said[0] || id in said[1] || id in said[2] || id in said[3] || id in said[4] || id in said[5] || id in said[6]
  {
    hide WorkloadID, PodID, NodeID, ServiceID, ServiceAccountID, PVCID, PVID;
    forall w | w in s.workloads { KeyTells(w.controllerKind, w.meta.uid, kind, uid); }
    SaidOfParts(c, s, kind, uid, id);
    hide PodUIDF, NodeUIDF, ServiceUIDF, AccountUIDF, PVCUIDF, PVUIDF;
    assert (exists w | w in s.workloads :: w.controllerKind == kind && w.meta.uid == uid && WorkloadID(c, w) == id) <==> id in Said(c, s, kind + "/" + uid)[0];
  }

  lemma SaidOfParts(c: Text, s: Snapshot, kind: string, uid: string, id: CanonicalID)
    requires '/' !in kind
    ensures var said := Said(c, s, kind + "/" + uid);
            && ((kind == "Pod" && exists p | p in s.pods :: p.meta.uid == uid && PodID(c, p) == id) <==> id in said[1])
            && ((kind == "Node" && exists n | n in s.nodes :: n.meta.uid == uid && NodeID(c, n) == id) <==> id in said[2])
            && ((kind == "Service" && exists v | v in s.services :: v.meta.uid == uid && ServiceID(c, v) == id) <==> id in said[3])
            && ((kind == "ServiceAccount" && exists a | a in s.serviceAccounts :: a.meta.uid == uid && ServiceAccountID(c, a) == id) <==> id in said[4])
            && ((kind == "PersistentVolumeClaim" && exists p | p in s.pvcs :: p.meta.uid == uid && PVCID(c, p) == id) <==> id in said[5])
            && ((kind == "PersistentVolume" && exists p | p in s.pvs :: p.meta.uid == uid && PVID(c, p) == id) <==> id in said[6])
  {
    hide PodID, NodeID, ServiceID, ServiceAccountID, PVCID, PVID, WorkloadID;
    KindTells("Pod", PodUIDF(), PodMeta(), kind, uid);
    KindTells("Node", NodeUIDF(), NodeMeta(), kind, uid);
    KindTells("Service", ServiceUIDF(), ServiceMeta(), kind, uid);
    KindTells("ServiceAccount", AccountUIDF(), NamedMeta(), kind, uid);
    KindTells("PersistentVolumeClaim", PVCUIDF(), PVCMeta(), kind, uid);
    KindTells("PersistentVolume", PVUIDF(), PVMeta(), kind, uid);
    UIDsAreRead();
    hide PodUIDF, NodeUIDF, ServiceUIDF, AccountUIDF, PVCUIDF, PVUIDF, PodMeta, NodeMeta, ServiceMeta, NamedMeta, PVCMeta, PVMeta, WorkloadUIDF;
  }

  lemma UIDsAreRead()
    ensures (forall x :: PodMeta()(x) == x.meta) && (forall x :: NodeMeta()(x) == x.meta) && (forall x :: ServiceMeta()(x) == x.meta)
    ensures (forall x :: NamedMeta()(x) == x.meta) && (forall x :: PVCMeta()(x) == x.meta) && forall x :: PVMeta()(x) == x.meta
  {
  }

  lemma KindTells<T(!new)>(own: string, key: T -> string, meta: T -> Metadata, kind: string, uid: string)
    requires '/' !in own && '/' !in kind && forall x :: key(x) == own + "/" + meta(x).uid
    ensures forall x :: key(x) == kind + "/" + uid <==> kind == own && meta(x).uid == uid
  {
    forall x
      ensures key(x) == kind + "/" + uid <==> kind == own && meta(x).uid == uid
    {
      KeyTells(own, meta(x).uid, kind, uid);
    }
  }

  ghost predicate AllAgree(said: seq<set<CanonicalID>>) {
    forall a, b, i, j | 0 <= a < |said| && 0 <= b < |said| && i in said[a] && j in said[b] :: i == j
  }

  ghost function AllSaid(said: seq<set<CanonicalID>>): set<CanonicalID> {
    if said == [] then {} else AllSaid(said[..|said| - 1]) + said[|said| - 1]
  }

  ghost function AllMaps(maps: seq<map<string, CanonicalID>>): map<string, CanonicalID> {
    if maps == [] then map[] else AllMaps(maps[..|maps| - 1]) + maps[|maps| - 1]
  }

  lemma {:induction false} SaidByOne(said: seq<set<CanonicalID>>)
    ensures forall t :: t in AllSaid(said) <==> exists i | 0 <= i < |said| :: t in said[i]
  {
    if said != [] {
      var init, last := said[..|said| - 1], said[|said| - 1];
      SaidByOne(init);
      assert forall i | 0 <= i < |init| :: said[i] == init[i];
    }
  }

  lemma {:induction false} MapsHold(maps: seq<map<string, CanonicalID>>, said: seq<set<CanonicalID>>, k: string)
    requires |maps| == |said| && AllAgree(said) && forall i | 0 <= i < |said| :: HoldsExactly(maps[i], k, said[i])
    ensures HoldsExactly(AllMaps(maps), k, AllSaid(said))
  {
    if said != [] {
      var n := |said| - 1;
      MapsHold(maps[..n], said[..n], k);
      SaidByOne(said[..n]);
      hide HoldsExactly;
      assert forall i | 0 <= i < n :: said[..n][i] == said[i];
      UnionHolds(AllMaps(maps[..n]), AllSaid(said[..n]), maps[n], said[n], k);
    }
  }

  ghost function Parts(c: Text, s: Snapshot): seq<map<string, CanonicalID>> {
    [Index(s.workloads, WorkloadUIDF(), WorkloadIDF(c)), Index(s.pods, PodUIDF(), PodIDF(c)), Index(s.nodes, NodeUIDF(), NodeIDF(c)),
     Index(s.services, ServiceUIDF(), ServiceIDF(c)), Index(s.serviceAccounts, AccountUIDF(), ServiceAccountIDF(c)),
     Index(s.pvcs, PVCUIDF(), PVCIDF(c)), Index(s.pvs, PVUIDF(), PVIDF(c))]
  }

  lemma OnePart(m: map<string, CanonicalID>)
    ensures AllMaps([m]) == m
  {
    assert map[] + m == m;
  }

  lemma TargetsAreParts(c: Text, s: Snapshot)
    ensures AllMaps(Parts(c, s)) == EventTargets(c, s)
  {
    hide Index, WorkloadUIDF, PodUIDF, NodeUIDF, ServiceUIDF, AccountUIDF, PVCUIDF, PVUIDF;
    var p := Parts(c, s);
    assert p[..6][..5] == p[..5] && p[..5][..4] == p[..4] && p[..4][..3] == p[..3] && p[..3][..2] == p[..2] && p[..2][..1] == p[..1];
    OnePart(p[0]);
    assert p[..1] == [p[0]];
    assert AllMaps(p[..2]) == p[0] + p[1];
    assert AllMaps(p[..3]) == p[0] + p[1] + p[2];
    assert AllMaps(p[..4]) == p[0] + p[1] + p[2] + p[3];
    assert AllMaps(p[..5]) == p[0] + p[1] + p[2] + p[3] + p[4];
    assert AllMaps(p[..6]) == p[0] + p[1] + p[2] + p[3] + p[4] + p[5];
  }

  lemma SevenParts(c: Text, s: Snapshot, k: string)
    requires AllAgree(Said(c, s, k))
    ensures |Said(c, s, k)| == |Parts(c, s)| == 7 && forall i | 0 <= i < 7 :: HoldsExactly(Parts(c, s)[i], k, Said(c, s, k)[i])
  {
    hide HoldsExactly, Index, WorkloadUIDF, PodUIDF, NodeUIDF, ServiceUIDF, AccountUIDF, PVCUIDF, PVUIDF, WorkloadID, PodID, NodeID, ServiceID,
         ServiceAccountID, PVCID, PVID;
    var said := Said(c, s, k);
    WholePart(s.workloads, WorkloadUIDF(), WorkloadIDF(c), k, said[0]);
    WholePart(s.pods, PodUIDF(), PodIDF(c), k, said[1]);
    WholePart(s.nodes, NodeUIDF(), NodeIDF(c), k, said[2]);
    WholePart(s.services, ServiceUIDF(), ServiceIDF(c), k, said[3]);
    WholePart(s.serviceAccounts, AccountUIDF(), ServiceAccountIDF(c), k, said[4]);
    WholePart(s.pvcs, PVCUIDF(), PVCIDF(c), k, said[5]);
    WholePart(s.pvs, PVUIDF(), PVIDF(c), k, said[6]);
  }

  lemma WholePart<T(!new)>(xs: seq<T>, key: T -> string, id: T -> CanonicalID, k: string, said: set<CanonicalID>)
    requires said == (set x | x in xs && key(x) == k :: id(x)) && forall i, j | i in said && j in said :: i == j
    ensures HoldsExactly(Index(xs, key, id), k, said)
  {
    hide HoldsExactly, Index;
    assert forall x | x in xs && key(x) == k :: id(x) in said;
    PartHolds(xs, key, id, k);
  }

  lemma SaidAreObjects(c: Text, s: Snapshot, kind: string, uid: string)
    requires (forall w | w in s.workloads :: '/' !in w.controllerKind) && '/' !in kind
    ensures |Said(c, s, kind + "/" + uid)| == 7
    ensures forall t :: IsObject(c, s, kind, uid, t) <==> exists a | 0 <= a < 7 :: t in Said(c, s, kind + "/" + uid)[a]
  {
    SevenSaid(c, s, kind + "/" + uid);
    forall t { SaidIsObject(c, s, kind, uid, t); }
    hide IsObject, Said;
  }

  lemma SevenSaid(c: Text, s: Snapshot, k: string)
    ensures |Said(c, s, k)| == 7
  {
  }

  lemma ObjectsAgree(c: Text, s: Snapshot, kind: string, uid: string)
    requires UIDsIdentify(c, s) && '/' !in kind
    ensures AllAgree(Said(c, s, kind + "/" + uid))
  {
    SaidAreObjects(c, s, kind, uid);
    hide IsObject, Said;
    var said := Said(c, s, kind + "/" + uid);
    forall a, b, i, j | 0 <= a < |said| && 0 <= b < |said| && i in said[a] && j in said[b]
      ensures i == j
    {
      assert IsObject(c, s, kind, uid, i) && IsObject(c, s, kind, uid, j);
    }
  }

  /** The target map holds exactly the objects of the kind and UID. */
  lemma TargetsSay(c: Text, s: Snapshot, kind: string, uid: string, t: CanonicalID)
    requires UIDsIdentify(c, s) && '/' !in kind
    ensures var key := kind + "/" + uid; key in EventTargets(c, s) && EventTargets(c, s)[key] == t <==> IsObject(c, s, kind, uid, t)
  {
    var k := kind + "/" + uid;
    var said := Said(c, s, k);
    ObjectsAgree(c, s, kind, uid);
    SaidAreObjects(c, s, kind, uid);
    SevenParts(c, s, k);
    hide IsObject, EventTargets, Said, Parts, UIDsIdentify, AllAgree, AllSaid, AllMaps;
    MapsHold(Parts(c, s), said, k);
    SaidByOne(said);
    TargetsAreParts(c, s);
  }

  // ---- Reports ----

  lemma ReportSays(c: Text, s: Snapshot, event: KubeEvent, k: EdgeKey)
    requires UIDsIdentify(c, s) && event in s.events && k.kind == ReportedByEvent
    ensures HasEdge(EventEdges(c, EventTargets(c, s), event), k) <==>
      EventID(c, event) == k.from && IsObject(c, s, event.involvedKind, event.involvedUID, k.to)
  {
    TargetsSay(c, s, event.involvedKind, event.involvedUID, k.to);
    hide EventTargets, EventID, IsObject, HasEdge;
    var key := event.involvedKind + "/" + event.involvedUID;
    if key in EventTargets(c, s) {
      OneHas(NewEdge(EventID(c, event), EventTargets(c, s)[key], ReportedByEvent), k);
    } else {
      OneHas(NewEdge(k.from, k.to, k.kind), k);
    }
  }

  /** A rebuild stores exactly the reports of events that name a listed object by kind and UID. */
  lemma RebuildShowsReports(c: Text, rules: seq<CSIRule>, x: Inferred, s: Snapshot, order: seq<string>, evidence: seq<Edge>, e: CanonicalID, t: CanonicalID)
    requires InferredShape(x) && EdgesIn(evidence, {AffectedByWebhook}) && UIDsIdentify(c, s)
    ensures EdgeKey(e, ReportedByEvent, t) in Rebuilt(c, rules, x, s, order, evidence).edges <==> Reports(c, s, e, t)
  {
    hide Rebuilt, Flat, HasEdge, PodEdgesF, ImageEdgesF, ServiceEdgesF, StorageEdges, EventEdges, EventTargets, EventID, IsObject, UIDsIdentify;
    var k := EdgeKey(e, ReportedByEvent, t);
    RebuiltHas(c, rules, x, s, order, evidence, k);
    FlatHas(s.events, EventEdgesF(c, s), k);
    forall event | event in s.events { ReportSays(c, s, event, k); }
  }

  lemma {:induction false} FindEventFinds(events: seq<KubeEvent>, namespace: Text, name: Text)
    ensures Events.FindEvent(events, namespace, name).TheEvent? ==>
      var e := Events.FindEvent(events, namespace, name).event; e in events && e.meta.namespace == namespace && e.meta.name == name
  {
    if events != [] {
      FindEventFinds(events[1..], namespace, name);
      assert events == [events[0]] + events[1..];
    }
  }

  /** From any prior graph, an update of an event leaves its node with the one report the snapshot speaks of, and no other edge at it. */
  lemma UpdateShowsTheReport(g: Graph, c: Text, s: Snapshot, namespace: Text, name: Text, evidence: seq<Edge>, k: EdgeKey)
    requires g.Valid() && UIDsIdentify(c, s) && namespace != "" && name != "" && Events.FindEvent(s.events, namespace, name).TheEvent?
    requires EdgesIn(evidence, {AffectedByWebhook}) && k.kind == ReportedByEvent
    requires var e := Events.FindEvent(s.events, namespace, name).event; k.from == EventID(c, e) && OnlyOnesNode(g, EventID(c, e), namespace, name)
    ensures var e := Events.FindEvent(s.events, namespace, name).event;
            k in Events.Reconciled(g, c, s, namespace, name, ChangeUpsert, evidence).edges <==> IsObject(c, s, e.involvedKind, e.involvedUID, k.to)
  {
    hide IsObject, UIDsIdentify, Events.FindEvent, Events.Reconciled, HasEdge, EventEdges, EventTargets, EventID, EdgesIn, OnlyOnesNode;
    FindEventFinds(s.events, namespace, name);
    var e := Events.FindEvent(s.events, namespace, name).event;
    ReportSays(c, s, e, k);
    OnlyTheReport(g, c, s, namespace, name, evidence, k);
  }

  lemma OnlyTheReport(g: Graph, c: Text, s: Snapshot, namespace: Text, name: Text, evidence: seq<Edge>, k: EdgeKey)
    requires g.Valid() && namespace != "" && name != "" && Events.FindEvent(s.events, namespace, name).TheEvent?
    requires EdgesIn(evidence, {AffectedByWebhook}) && k.kind == ReportedByEvent
    requires var e := Events.FindEvent(s.events, namespace, name).event; k.from == EventID(c, e) && OnlyOnesNode(g, EventID(c, e), namespace, name)
    ensures var e := Events.FindEvent(s.events, namespace, name).event;
            k in Events.Reconciled(g, c, s, namespace, name, ChangeUpsert, evidence).edges <==> HasEdge(EventEdges(c, EventTargets(c, s), e), k)
  {
    hide EventTargets, Events.FindEvent, Events.Cleared, Events.WithEvent, HasEdge, EventEdges, ToEdges, EventID, EdgesIn, OnlyOnesNode;
    NotAmong(evidence, {AffectedByWebhook}, k);
    var e := Events.FindEvent(s.events, namespace, name).event;
    NothingIsLeftThere(g, namespace, name, EventID(c, e), k);
    WrittenEdges(Events.Cleared(g, namespace, name), c, s, e, evidence, k);
    HasInMap(EventEdges(c, EventTargets(c, s), e), k);
  }

  lemma WrittenEdges(cleared: Graph, c: Text, s: Snapshot, e: KubeEvent, evidence: seq<Edge>, k: EdgeKey)
    ensures k in Events.WithEvent(cleared, c, s, e).WithAll([], evidence).edges <==>
      k in cleared.edges || k in ToEdges(EventEdges(c, EventTargets(c, s), e)) || k in ToEdges(evidence)
  {
    hide EventTargets, EventEdges, ToEdges, ToNodes, EventNode;
  }

  lemma NothingIsLeftThere(g: Graph, namespace: Text, name: Text, id: CanonicalID, k: EdgeKey)
    requires g.Valid() && OnlyOnesNode(g, id, namespace, name) && k.from == id
    ensures k !in Events.Cleared(g, namespace, name).edges
  {
  }

  /** A stored node of the identifier is an event of the name, and without one no edge touches the identifier. */
  ghost predicate OnlyOnesNode(g: Graph, id: CanonicalID, namespace: Text, name: Text) {
    if id in g.nodes then g.nodes[id].kind == Event && g.nodes[id].namespace == namespace && g.nodes[id].name == name
    else forall k | k in g.edges :: !TouchesKey(k, id)
  }

  // ---- Blocked workloads ----

  lemma {:induction false} BlockedAre(events: seq<KubeEvent>, workloads: map<string, CanonicalID>, w: CanonicalID)
    ensures w in BlockedWorkloads(events, workloads) <==> exists e | e in events ::
      e.reason in {"FailedCreate", "FailedAdmission"} && NsName(e.meta.namespace, e.involvedName) in workloads
      && workloads[NsName(e.meta.namespace, e.involvedName)] == w
  {
    hide NsName;
    if events != [] {
      var init, last := events[..|events| - 1], events[|events| - 1];
      BlockedAre(init, workloads, w);
      assert events == init + [last];
      assert forall e :: e in events <==> e in init || e == last;
    }
  }

  ghost predicate WorkloadNamesIdentify(c: Text, s: Snapshot) { Namespaced(s.workloads, WorkloadMeta(), WorkloadIDF(c)) }

  function WorkloadMeta(): KubeWorkload -> Metadata { (x: KubeWorkload) => x.meta }

  lemma BlockedSays(c: Text, s: Snapshot, w: CanonicalID)
    requires WorkloadNamesIdentify(c, s)
    ensures w in BlockedWorkloads(s.events, WorkloadIDs(c, s.workloads)) <==> Blocked(c, s, w)
  {
    hide NsName, Index, WorkloadID, BlockedWorkloads, Namespaced;
    BlockedAre(s.events, WorkloadIDs(c, s.workloads), w);
    forall e | e in s.events { NamespacedHas(s.workloads, WorkloadKeyF(), WorkloadMeta(), WorkloadIDF(c), e.meta.namespace, e.involvedName, w); }
    assert forall x: KubeWorkload :: WorkloadMeta()(x) == x.meta && WorkloadIDF(c)(x) == WorkloadID(c, x);
  }

  lemma EvidenceIsOfTheBlocked(c: Text, s: Snapshot, evidence: seq<Edge>, w: CanonicalID)
    requires Events.IsSnapshotEvidence(evidence, c, s) && WorkloadNamesIdentify(c, s)
    ensures (exists h :: HasEdge(evidence, EdgeKey(w, AffectedByWebhook, h))) <==> s.webhookConfigs != [] && Blocked(c, s, w)
    ensures forall h | HasEdge(evidence, EdgeKey(w, AffectedByWebhook, h)) :: exists x | x in s.webhookConfigs :: WebhookID(c, x) == h
  {
    BlockedSays(c, s, w);
    IndexMembers(s.webhookConfigs, WebhookKeyF(), WebhookIDF(c));
    hide BlockedWorkloads, WorkloadIDs, WorkloadNamesIdentify, Blocked, WebhookID, Index, IsEvidence, HasEdge;
    var blocked, webhooks := BlockedWorkloads(s.events, WorkloadIDs(c, s.workloads)), WebhookIDs(c, s.webhookConfigs);
    EvidenceHas(evidence, blocked, webhooks.Values, w);
    if s.webhookConfigs != [] {
      assert WebhookKeyF()(s.webhookConfigs[0]) in webhooks;
      assert webhooks[WebhookKeyF()(s.webhookConfigs[0])] in webhooks.Values;
    }
  }

  /** After a rebuild, as after any update of an event from any prior graph, webhook evidence is stored for exactly the workloads that failed
      events name, whenever a webhook is listed, and points to listed webhooks only. */
  lemma EvidenceShowsTheBlocked(g: Graph, c: Text, rules: seq<CSIRule>, x: Inferred, s: Snapshot, order: seq<string>, evidence: seq<Edge>,
                                namespace: Text, name: Text, change: ChangeType, w: CanonicalID)
    requires InferredShape(x) && Events.IsSnapshotEvidence(evidence, c, s) && WorkloadNamesIdentify(c, s) && namespace != "" && name != ""
    ensures var full, narrow := Rebuilt(c, rules, x, s, order, evidence).edges, Events.Reconciled(g, c, s, namespace, name, change, evidence).edges;
            && ((exists h :: EdgeKey(w, AffectedByWebhook, h) in full) <==> s.webhookConfigs != [] && Blocked(c, s, w))
            && ((exists h :: EdgeKey(w, AffectedByWebhook, h) in narrow) <==> s.webhookConfigs != [] && Blocked(c, s, w))
            && forall h | EdgeKey(w, AffectedByWebhook, h) in full || EdgeKey(w, AffectedByWebhook, h) in narrow ::
                 exists hook | hook in s.webhookConfigs :: WebhookID(c, hook) == h
  {
    hide Rebuilt, Events.Reconciled, Only, HasEdge, Blocked, WebhookID, Events.IsSnapshotEvidence, WorkloadNamesIdentify, InferredShape, ToEdges;
    EvidenceIsOfTheBlocked(c, s, evidence, w);
    Events.UpdatedEvidence(g, c, s, namespace, name, change, evidence);
    Events.RebuiltEvidence(c, rules, x, s, order, evidence);
    var full, narrow := Rebuilt(c, rules, x, s, order, evidence).edges, Events.Reconciled(g, c, s, namespace, name, change, evidence).edges;
    forall h
      ensures EdgeKey(w, AffectedByWebhook, h) in full <==> HasEdge(evidence, EdgeKey(w, AffectedByWebhook, h))
      ensures EdgeKey(w, AffectedByWebhook, h) in narrow <==> HasEdge(evidence, EdgeKey(w, AffectedByWebhook, h))
    {
      var k := EdgeKey(w, AffectedByWebhook, h);
      HasInMap(evidence, k);
      InEvidence(full, evidence, k);
      InEvidence(narrow, evidence, k);
    }
  }

  lemma InEvidence(m: EdgeMap, evidence: seq<Edge>, k: EdgeKey)
    requires Only(m, Events.EvidenceKey()) == ToEdges(evidence) && k.kind == AffectedByWebhook
    ensures k in m <==> k in ToEdges(evidence)
  {
    hide ToEdges;
    assert k in Only(m, Events.EvidenceKey()) <==> k in m;
  }

  // ---- What an update leaves alone ----

  /** An edge other than evidence, and than the updated event's own report, survives exactly when it touches no event of the name. */
  lemma OtherEdgesSurvive(g: Graph, c: Text, s: Snapshot, namespace: Text, name: Text, change: ChangeType, evidence: seq<Edge>, k: EdgeKey)
    requires namespace != "" && name != "" && EdgesIn(evidence, {AffectedByWebhook}) && k.kind != AffectedByWebhook
    requires var found := Events.FindEvent(s.events, namespace, name); found.TheEvent? && k.kind == ReportedByEvent ==> k.from != EventID(c, found.event)
    ensures var r := Events.Reconciled(g, c, s, namespace, name, change, evidence);
            var gone := set id | id in g.nodes && g.nodes[id].kind == Event && g.nodes[id].namespace == namespace && g.nodes[id].name == name;
            && (k in r.edges <==> k in g.edges && k.from !in gone && k.to !in gone) && (k in r.edges ==> r.edges[k] == g.edges[k])
  {
    NotAmong(evidence, {AffectedByWebhook}, k);
    ClearedEdges(g, namespace, name, k);
    hide Events.FindEvent, Events.Cleared, EventTargets, ToEdges, ToNodes, EventID, EventNode, EdgesIn, EventEdges;
    var found := Events.FindEvent(s.events, namespace, name);
    if found.TheEvent? {
      ReportStartsThere(c, EventTargets(c, s), found.event, k);
    }
  }

  lemma ReportStartsThere(c: Text, targets: map<string, CanonicalID>, e: KubeEvent, k: EdgeKey)
    ensures k in ToEdges(EventEdges(c, targets, e)) ==> k.kind == ReportedByEvent && k.from == EventID(c, e)
  {
    ToEdgesMembers(EventEdges(c, targets, e));
    hide ToEdges, EventID;
  }

  lemma ClearedEdges(g: Graph, namespace: Text, name: Text, k: EdgeKey)
    requires k.kind != AffectedByWebhook
    ensures var r := Events.Cleared(g, namespace, name);
            var gone := set id | id in g.nodes && g.nodes[id].kind == Event && g.nodes[id].namespace == namespace && g.nodes[id].name == name;
            && (k in r.edges <==> k in g.edges && k.from !in gone && k.to !in gone) && (k in r.edges ==> r.edges[k] == g.edges[k])
  {
    assert Doomed(g, Events.NamedEvent(namespace, name)) ==
      set id | id in g.nodes && g.nodes[id].kind == Event && g.nodes[id].namespace == namespace && g.nodes[id].name == name;
  }
}
