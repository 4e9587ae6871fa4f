/** The links of claims, volumes, classes and drivers in a rebuild, and after an update, say what the snapshot says. */
module StorageLinks {
  import opened Identity
  import opened Strings
  import opened GraphModel
  import opened Resources
  import opened Csi
  import opened Builder
  import opened RebuildSections
  import opened SnapshotLinks
  import opened LinkPasses
  import opened PodLinks
  import SR = StorageRefinement
  import Storage = StorageReconciler

  // ---- Claims and volumes ----

  lemma ClusterWideHas<T(!new)>(xs: seq<T>, key: T -> string, meta: T -> Metadata, id: T -> CanonicalID, name: string, t: CanonicalID)
    requires ClusterWide(xs, meta, id) && forall x | x in xs :: key(x) == meta(x).name
    ensures name in Index(xs, key, id) && Index(xs, key, id)[name] == t <==> exists x | x in xs :: meta(x).name == name && id(x) == t
  {
    hide Index;
    IndexHas(xs, key, id, name, t);
  }

  lemma VolumesHave(c: Text, s: Snapshot, name: string, v: CanonicalID)
    requires ClusterWide(s.pvs, PVMeta(), PVIDF(c))
    ensures name in PVIDs(c, s.pvs) && PVIDs(c, s.pvs)[name] == v <==> exists pv | pv in s.pvs :: pv.meta.name == name && PVID(c, pv) == v
  {
    hide Index, PVID, ClusterWide;
    ClusterWideHas(s.pvs, PVKeyF(), PVMeta(), PVIDF(c), name, v);
    assert forall x: KubePV :: PVMeta()(x) == x.meta && PVIDF(c)(x) == PVID(c, x);
  }

  lemma ClassesHave(c: Text, s: Snapshot, name: string, cl: CanonicalID)
    requires ClusterWide(s.storageClasses, ClassMeta(), StorageClassIDF(c))
    ensures name in StorageClassIDs(c, s.storageClasses) && StorageClassIDs(c, s.storageClasses)[name] == cl <==>
      exists sc | sc in s.storageClasses :: sc.meta.name == name && StorageClassID(c, sc) == cl
  {
    hide Index, StorageClassID, ClusterWide;
    ClusterWideHas(s.storageClasses, StorageClassKeyF(), ClassMeta(), StorageClassIDF(c), name, cl);
    assert forall x: KubeStorageClass :: ClassMeta()(x) == x.meta && StorageClassIDF(c)(x) == StorageClassID(c, x);
  }

  lemma ClaimIsListed(c: Text, s: Snapshot, claim: KubePVC)
    requires Namespaced(s.pvcs, PVCMeta(), PVCIDF(c)) && claim in s.pvcs
    ensures MetaKey(claim.meta) in PVCIDs(c, s.pvcs) && PVCIDs(c, s.pvcs)[MetaKey(claim.meta)] == PVCID(c, claim)
  {
    hide Index, PVCID, NsName;
    forall x | x in s.pvcs && PVCKeyF()(x) == PVCKeyF()(claim)
      ensures PVCIDF(c)(x) == PVCIDF(c)(claim)
    {
      assert PVCMeta()(x) == x.meta && PVCMeta()(claim) == claim.meta;
      NsNameTells(x.meta.namespace, x.meta.name, claim.meta.namespace, claim.meta.name);
    }
    IndexIsExact(s.pvcs, PVCKeyF(), PVCIDF(c), claim);
  }

  lemma {:induction false} ClassOfFirstVolume(claim: KubePVC, pvs: seq<KubePV>, name: Text)
    requires claim.storageClassName == "" && claim.volumeName != "" && name != ""
    ensures StorageClassNameForPVC(claim, pvs) == name <==> exists i | 0 <= i < |pvs| ::
      pvs[i].meta.name == claim.volumeName && pvs[i].storageClassName == name && forall j | 0 <= j < i :: pvs[j].meta.name != claim.volumeName
  {
    if pvs != [] && pvs[0].meta.name != claim.volumeName {
      var rest := pvs[1..];
      ClassOfFirstVolume(claim, rest, name);
      if i :| 0 <= i < |pvs| && pvs[i].meta.name == claim.volumeName && pvs[i].storageClassName == name
              && forall j | 0 <= j < i :: pvs[j].meta.name != claim.volumeName {
        assert rest[i - 1] == pvs[i] && forall j | 0 <= j < i - 1 :: rest[j] == pvs[j + 1];
      }
      if i :| 0 <= i < |rest| && rest[i].meta.name == claim.volumeName && rest[i].storageClassName == name
              && forall j | 0 <= j < i :: rest[j].meta.name != claim.volumeName {
        assert pvs[i + 1] == rest[i] && forall j | 0 < j < i + 1 :: pvs[j] == rest[j - 1];
      }
    }
  }

  lemma ClassOfClaim(s: Snapshot, claim: KubePVC, name: Text)
    requires name != ""
    ensures StorageClassNameForPVC(claim, s.pvs) == name <==> HasClass(s, claim, name)
  {
    if claim.storageClassName == "" && claim.volumeName != "" {
      ClassOfFirstVolume(claim, s.pvs, name);
    }
  }

  lemma ClaimBinds(c: Text, rules: seq<CSIRule>, s: Snapshot, claim: KubePVC, k: EdgeKey)
    requires StorageNamesIdentify(c, s) && claim in s.pvcs && k.kind == BoundToPV
    ensures HasEdge(PVCEdgesF(StorageMapsOf(c, rules, s), s)(claim), k) <==>
      PVCID(c, claim) == k.from && exists pv | pv in s.pvs :: PVID(c, pv) == k.to && claim.volumeName == pv.meta.name != ""
  {
    ClaimIsListed(c, s, claim);
    VolumesHave(c, s, claim.volumeName, k.to);
    hide PVIDs, PVCIDs, StorageClassIDs, CSIDriverIDs, PVCID, PVID, NsName, StorageClassNameForPVC, Namespaced, ClusterWide, HasEdge;
    ClaimParts(c, rules, s, claim, k);
  }

  /** A claim's edges, each an edge or none. */
  lemma ClaimParts(c: Text, rules: seq<CSIRule>, s: Snapshot, claim: KubePVC, k: EdgeKey)
    requires var ids := PVCIDs(c, s.pvcs); MetaKey(claim.meta) in ids && ids[MetaKey(claim.meta)] == PVCID(c, claim)
    ensures var volumes, classes, className := PVIDs(c, s.pvs), StorageClassIDs(c, s.storageClasses), StorageClassNameForPVC(claim, s.pvs);
            HasEdge(PVCEdgesF(StorageMapsOf(c, rules, s), s)(claim), k) <==>
              (k.from == PVCID(c, claim) &&
               ((k.kind == BoundToPV && claim.volumeName != "" && claim.volumeName in volumes && volumes[claim.volumeName] == k.to)
                || (k.kind == UsesStorageClass && className != "" && className in classes && classes[className] == k.to)))
  {
    hide PVIDs, PVCIDs, StorageClassIDs, CSIDriverIDs, PVCID, NsName, StorageClassNameForPVC, HasEdge;
    var m, className := StorageMapsOf(c, rules, s), StorageClassNameForPVC(claim, s.pvs);
    var id := PVCID(c, claim);
    var bound := if claim.volumeName != "" && claim.volumeName in m.pvs then [NewEdge(id, m.pvs[claim.volumeName], BoundToPV)] else [];
    var uses := if className != "" && className in m.classes
                then [Edge(id, m.classes[className], UsesStorageClass,
                           if claim.storageClassName == "" then "pvc-bound-pv-storageclass/v1" else "pvc-storageclass/v1")]
                else [];
    HasAppend(bound, uses, k);
    if bound != [] { OneHas(bound[0], k); } else { OneHas(NewEdge(id, id, BoundToPV), k); }
    if uses != [] { OneHas(uses[0], k); } else { OneHas(NewEdge(id, id, BoundToPV), k); }
  }

  lemma ClaimUsesClass(c: Text, rules: seq<CSIRule>, s: Snapshot, claim: KubePVC, k: EdgeKey)
    requires StorageNamesIdentify(c, s) && claim in s.pvcs && k.kind == UsesStorageClass
    ensures HasEdge(PVCEdgesF(StorageMapsOf(c, rules, s), s)(claim), k) <==>
      PVCID(c, claim) == k.from && exists sc | sc in s.storageClasses ::
        StorageClassID(c, sc) == k.to && sc.meta.name != "" && HasClass(s, claim, sc.meta.name)
  {
    ClaimIsListed(c, s, claim);
    var className := StorageClassNameForPVC(claim, s.pvs);
    ClassesHave(c, s, className, k.to);
    forall sc | sc in s.storageClasses && sc.meta.name != "" { ClassOfClaim(s, claim, sc.meta.name); }
    hide PVIDs, PVCIDs, StorageClassIDs, CSIDriverIDs, PVCID, StorageClassID, NsName, StorageClassNameForPVC, HasClass, Namespaced, ClusterWide, HasEdge;
    ClaimParts(c, rules, s, claim, k);
  }

  lemma VolumeUsesClass(c: Text, rules: seq<CSIRule>, s: Snapshot, pv: KubePV, k: EdgeKey)
    requires StorageNamesIdentify(c, s) && pv in s.pvs && k.kind == UsesStorageClass
    ensures HasEdge(PVEdgesF(StorageMapsOf(c, rules, s))(pv), k) <==>
      PVID(c, pv) == k.from && exists sc | sc in s.storageClasses ::
        StorageClassID(c, sc) == k.to && sc.meta.name != "" && pv.storageClassName == sc.meta.name
  {
    VolumeIsListed(c, s, pv);
    ClassesHave(c, s, pv.storageClassName, k.to);
    hide PVIDs, PVCIDs, StorageClassIDs, CSIDriverIDs, PVID, StorageClassID, HasEdge;
    var classes := StorageClassIDs(c, s.storageClasses);
    if pv.storageClassName in classes {
      OneHas(Edge(PVID(c, pv), classes[pv.storageClassName], UsesStorageClass, "pv-storageclass/v1"), k);
    } else {
      OneHas(NewEdge(k.from, k.to, k.kind), k);
    }
  }

  lemma VolumeIsListed(c: Text, s: Snapshot, pv: KubePV)
    requires ClusterWide(s.pvs, PVMeta(), PVIDF(c)) && pv in s.pvs
    ensures pv.meta.name in PVIDs(c, s.pvs) && PVIDs(c, s.pvs)[pv.meta.name] == PVID(c, pv)
  {
    hide PVIDs, PVID;
    VolumesHave(c, s, pv.meta.name, PVID(c, pv));
  }

  // ---- Drivers ----

  lemma {:induction false} FirstRuleIs(driver: string, rules: seq<CSIRule>, rule: CSIRule)
    ensures RuleForDriver(driver, rules) == Rule(rule) <==> FirstRule(rules, driver, rule)
    ensures RuleForDriver(driver, rules).Rule? <==> RulesName(rules, driver)
  {
    if rules != [] {
      var rest := rules[1..];
      FirstRuleIs(driver, rest, rule);
      assert forall i | 0 < i < |rules| :: rules[i] == rest[i - 1];
      if rules[0].driver != driver {
        if i :| 0 <= i < |rules| && rules[i] == rule && rule.driver == driver && forall j | 0 <= j < i :: rules[j].driver != driver {
          assert rest[i - 1] == rule;
        }
        if i :| 0 <= i < |rest| && rest[i] == rule && rule.driver == driver && forall j | 0 <= j < i :: rest[j].driver != driver {
          assert rules[i + 1] == rule;
        }
      }
    }
  }

  lemma {:induction false} LastRuleIs(driver: string, rules: seq<CSIRule>, rule: CSIRule)
    requires driver != ""
    ensures Correlator(driver, rules) == Rule(rule) <==> LastRule(rules, driver, rule)
  {
    if rules != [] {
      var init, last := rules[..|rules| - 1], rules[|rules| - 1];
      LastRuleIs(driver, init, rule);
      assert forall i | 0 <= i < |init| :: rules[i] == init[i];
      if last.driver != driver {
        if i :| 0 <= i < |rules| && rules[i] == rule && rule.driver == driver && forall j | i < j < |rules| :: rules[j].driver != driver {
          assert init[i] == rule;
        }
        if i :| 0 <= i < |init| && init[i] == rule && rule.driver == driver && forall j | i < j < |init| :: init[j].driver != driver {
          assert rules[i] == rule;
        }
      }
    }
  }

  lemma ProvisionersAre(name: string, rules: seq<CSIRule>)
    ensures IsCSIProvisioner(name, false, rules) <==> name != "" && (RulesName(rules, name) || SoundsLikeCSI(name))
  {
    hide Contains, HasSuffix, RuleForDriver, RulesName;
    FirstRuleIs(name, rules, CSIRule("", "", [], []));
  }

  /** The driver map, synthetic entries included, holds exactly the drivers the snapshot knows. */
  lemma DriverMapSays(c: Text, rules: seq<CSIRule>, s: Snapshot, name: Text, d: CanonicalID)
    requires ClusterWide(s.csiDrivers, NamedMeta(), DriverIDF(c))
    ensures name in CSIDriverIDs(c, rules, s) && CSIDriverIDs(c, rules, s)[name] == d <==> IsDriver(c, rules, s, name, d)
  {
    hide CSIDriverID, IsCSIProvisioner, RulesName, SoundsLikeCSI, Index, ClusterWide, WithSynthetic;
    var observed := ObservedDriverIDs(c, s.csiDrivers);
    SR.SyntheticMembers(c, rules, observed, s.storageClasses);
    ClusterWideHas(s.csiDrivers, DriverKeyF(), NamedMeta(), DriverIDF(c), name, d);
    IndexMembers(s.csiDrivers, DriverKeyF(), DriverIDF(c));
    ProvisionersAre(name, rules);
    assert forall x: KubeNamed :: NamedMeta()(x) == x.meta && DriverIDF(c)(x) == CSIDriverID(c, x.meta.name, x.meta.uid) && DriverKeyF()(x) == x.meta.name;
  }

  lemma DriverNamesAreText(c: Text, rules: seq<CSIRule>, s: Snapshot, d: string)
    requires d in CSIDriverIDs(c, rules, s)
    ensures '|' !in d
  {
    hide CSIDriverID, IsCSIProvisioner, Index, WithSynthetic;
    SR.SyntheticMembers(c, rules, ObservedDriverIDs(c, s.csiDrivers), s.storageClasses);
    IndexMembers(s.csiDrivers, DriverKeyF(), DriverIDF(c));
    assert forall x: KubeNamed :: DriverKeyF()(x) == x.meta.name;
  }

  lemma ClassIsProvisioned(c: Text, rules: seq<CSIRule>, s: Snapshot, sc: KubeStorageClass, k: EdgeKey)
    requires StorageNamesIdentify(c, s) && sc in s.storageClasses && k.kind == ProvisionedByCSIDriver
    ensures HasEdge(StorageClassEdgesF(StorageMapsOf(c, rules, s))(sc), k) <==>
      StorageClassID(c, sc) == k.from && sc.provisioner != "" && IsDriver(c, rules, s, sc.provisioner, k.to)
  {
    ClassesHave(c, s, sc.meta.name, StorageClassID(c, sc));
    DriverMapSays(c, rules, s, sc.provisioner, k.to);
    hide PVIDs, PVCIDs, StorageClassIDs, CSIDriverIDs, StorageClassID, IsDriver, HasEdge;
    var drivers := CSIDriverIDs(c, rules, s);
    if sc.provisioner in drivers {
      OneHas(NewEdge(StorageClassID(c, sc), drivers[sc.provisioner], ProvisionedByCSIDriver), k);
    } else {
      OneHas(NewEdge(k.from, k.to, k.kind), k);
    }
  }

  // ---- Component pods ----

  lemma ComponentsAre(c: Text, rule: CSIRule, pod: KubePod)
    ensures IsController(rule, PodNode(c, pod)) <==> ControllerPod(rule, pod)
    ensures IsAgent(rule, PodNode(c, pod)) <==> AgentPod(rule, pod)
  {
    hide PodID;
    assert HasAnyPrefix(pod.meta.name, rule.controllerPodPrefixes) <==> NamedLike(pod.meta.name, rule.controllerPodPrefixes);
    assert HasAnyPrefix(pod.meta.name, rule.nodeAgentPodPrefixes) <==> NamedLike(pod.meta.name, rule.nodeAgentPodPrefixes);
  }

  /** The rule names the pod as the component of a driver that the link asks for. */
  ghost predicate Implements(kind: EdgeKind, rule: CSIRule, pod: KubePod) {
    (kind == ImplementedByCSIController && ControllerPod(rule, pod)) || (kind == ImplementedByCSINodeAgent && AgentPod(rule, pod))
  }

  /** The pods' nodes stand for the pods. */
  lemma PodNodesAre(c: Text, pods: seq<KubePod>)
    ensures forall node :: node in Flat(pods, PodNodeF(c)) <==> exists pod | pod in pods :: PodNode(c, pod) == node
  {
    hide Flat, PodNode;
    FlatMembers(pods, PodNodeF(c));
    forall pod | pod in pods
      ensures PodNode(c, pod) in Flat(pods, PodNodeF(c))
    {
      assert PodNode(c, pod) in PodNodeF(c)(pod);
    }
  }

  lemma ComponentEdge(c: Text, rule: CSIRule, driverID: CanonicalID, pod: KubePod, k: EdgeKey)
    ensures HasEdge(DriverComponent(rule, driverID)(PodNode(c, pod)), k) <==>
      k.from == driverID && k.to == PodID(c, pod) && Implements(k.kind, rule, pod)
  {
    ComponentsAre(c, rule, pod);
    hide PodID, IsController, IsAgent, ControllerPod, HasEdge;
    OneHas(Edge(driverID, PodID(c, pod), ImplementedByCSIController, "csi-component-rule/" + rule.driver + "/v1"), k);
    OneHas(Edge(driverID, PodID(c, pod), ImplementedByCSINodeAgent, "csi-component-rule/" + rule.driver + "/v1"), k);
    NotBoth(rule, pod);
  }

  lemma NotBoth(rule: CSIRule, pod: KubePod)
    ensures AgentPod(rule, pod) ==> !ControllerPod(rule, pod)
  {
  }

  lemma DriverHas(c: Text, rules: seq<CSIRule>, s: Snapshot, driverID: CanonicalID, name: Text, k: EdgeKey)
    ensures HasEdge(InferCSIComponentEdges(driverID, name, Flat(s.pods, PodNodeF(c)), rules), k) <==>
      k.from == driverID && exists rule, pod | pod in s.pods :: FirstRule(rules, name, rule) && PodID(c, pod) == k.to && Implements(k.kind, rule, pod)
  {
    hide Flat, PodID, Implements, HasEdge, FirstRule, RuleForDriver;
    var infraPods := Flat(s.pods, PodNodeF(c));
    forall rule { FirstRuleIs(name, rules, rule); }
    match RuleForDriver(name, rules)
    case NoRule => OneHas(NewEdge(k.from, k.to, k.kind), k);
    case Rule(rule) =>
      FlatHas(infraPods, DriverComponent(rule, driverID), k);
      PodNodesAre(c, s.pods);
      hide DriverComponent, PodNode;
      forall pod { ComponentEdge(c, rule, driverID, pod, k); }
  }

  lemma DriversHave(c: Text, rules: seq<CSIRule>, s: Snapshot, order: seq<string>, names: map<string, string>, k: EdgeKey)
    requires ClusterWide(s.csiDrivers, NamedMeta(), DriverIDF(c)) && IsEnumeration(order, CSIDriverIDs(c, rules, s))
    requires names.Keys == CSIDriverIDs(c, rules, s).Keys && forall d | d in names :: names[d] == d
    ensures var f := DriverEdgesF(StorageMapsOf(c, rules, s), rules, Flat(s.pods, PodNodeF(c)), names);
            HasEdge(Flat(order, f), k) <==> exists name: Text, rule, pod | pod in s.pods ::
              IsDriver(c, rules, s, name, k.from) && FirstRule(rules, name, rule) && PodID(c, pod) == k.to && Implements(k.kind, rule, pod)
  {
    hide Flat, PodID, Implements, HasEdge, FirstRule, IsDriver, CSIDriverIDs, PVCIDs, PVIDs, StorageClassIDs, InferCSIComponentEdges, ClusterWide;
    var f, drivers := DriverEdgesF(StorageMapsOf(c, rules, s), rules, Flat(s.pods, PodNodeF(c)), names), CSIDriverIDs(c, rules, s);
    FlatHas(order, f, k);
    forall name: Text { DriverMapSays(c, rules, s, name, k.from); }
    forall d | d in order
      ensures '|' !in d
      ensures HasEdge(f(d), k) <==>
        drivers[d] == k.from && exists rule, pod | pod in s.pods :: FirstRule(rules, d, rule) && PodID(c, pod) == k.to && Implements(k.kind, rule, pod)
    {
      DriverNamesAreText(c, rules, s, d);
      DriverHas(c, rules, s, drivers[d], d, k);
    }
    hide DriverEdgesF;
  }

  // ---- Volumes and their pods ----

  lemma ConsumersHave(s: Snapshot, pv: KubePV, m: string)
    ensures m in Flat(s.pvcs, ConsumersF(pv, s.pods)) <==>
      exists pvc, pod | pvc in s.pvcs && pod in s.pods :: pvc.volumeName == pv.meta.name && ConsumesPVC(pod, pvc) && pod.nodeName == m
  {
    hide ConsumesPVC, Flat;
    FlatMembers(s.pvcs, ConsumersF(pv, s.pods));
    forall pvc | pvc in s.pvcs
      ensures m in ConsumersF(pv, s.pods)(pvc) <==>
        pvc.volumeName == pv.meta.name && exists pod | pod in s.pods :: ConsumesPVC(pod, pvc) && pod.nodeName == m
    {
      FlatMembers(s.pods, ConsumerF(pvc));
    }
  }

  lemma AgentNodesAreTheVolumes(s: Snapshot, pv: KubePV, n: string)
    ensures n in AgentNodeNames(pv, s) <==> VolumeNode(s, pv, n)
  {
    hide Flat, NormalizeNodeNames, TrimSpace, ConsumersF;
    var affinity, mounted := CsiValue(pv, "nodeAffinity"), Flat(s.pvcs, ConsumersF(pv, s.pods));
    NormalizedMembers([affinity] + mounted);
    forall m { ConsumersHave(s, pv, m); }
    assert forall m :: m in [affinity] + mounted <==> m == affinity || m in mounted;
    NothingTrimmed();
  }

  lemma NothingTrimmed()
    ensures TrimSpace("") == ""
  {
  }

  lemma {:induction false} TrimmedStays(x: string)
    ensures TrimSpace(TrimSpace(x)) == TrimSpace(x)
  {
    if x != [] && IsSpace(x[0]) {
      TrimmedStays(x[1..]);
    } else if x != [] && IsSpace(x[|x| - 1]) {
      TrimmedStays(x[..|x| - 1]);
    }
  }

  lemma VolumeNodesAreTrimmed(s: Snapshot, pv: KubePV, n: string)
    requires VolumeNode(s, pv, n)
    ensures TrimSpace(n) == n != ""
  {
    hide TrimSpace, RefersTo;
    if "nodeAffinity" in pv.csi { TrimmedStays(pv.csi["nodeAffinity"]); }
    forall pod: KubePod { TrimmedStays(pod.nodeName); }
  }

  lemma CorrelationStarts(rule: CSIRule, pvID: CanonicalID, names: seq<string>, infraPods: seq<Node>)
    ensures forall e | e in CorrelatePVToCSIComponents(rule, pvID, names, infraPods) :: e.from == pvID
  {
    hide NormalizeNodeNames, IsController, IsAgent;
    forall affinity, e | e in Correlate(rule, pvID, affinity, infraPods)
      ensures e.from == pvID
    {
      FlatMembers(infraPods, PodCorrelation(rule, pvID, affinity));
    }
    var all := Flat(NormalizeNodeNames(names), CorrelateOn(rule, pvID, infraPods));
    FlatMembers(NormalizeNodeNames(names), CorrelateOn(rule, pvID, infraPods));
    FirstPerKeyIsPart(all);
  }

  /** On every node name, and on none, the same controllers come up. */
  lemma ControllersCorrelate(rule: CSIRule, pvID: CanonicalID, names: seq<string>, infraPods: seq<Node>, p: CanonicalID)
    ensures HasEdge(CorrelatePVToCSIComponents(rule, pvID, names, infraPods), EdgeKey(pvID, ManagedByCSIController, p)) <==>
      exists pod | pod in infraPods :: pod.id == p && IsController(rule, pod)
  {
    var k := EdgeKey(pvID, ManagedByCSIController, p);
    forall affinity
      ensures HasEdge(Correlate(rule, pvID, affinity, infraPods), k) <==> exists pod | pod in infraPods :: pod.id == p && IsController(rule, pod)
    {
      ControllersOnOne(rule, pvID, affinity, infraPods, p);
    }
    hide Correlate, IsController, NormalizeNodeNames, FirstPerKey;
    var all := Flat(NormalizeNodeNames(names), CorrelateOn(rule, pvID, infraPods));
    FirstPerKeyMembers(all);
    FlatHasEdge(rule, pvID, NormalizeNodeNames(names), infraPods, k);
    if NormalizeNodeNames(names) != [] {
      assert NormalizeNodeNames(names)[0] in NormalizeNodeNames(names);
    }
  }

  lemma ControllersOnOne(rule: CSIRule, pvID: CanonicalID, affinity: string, infraPods: seq<Node>, p: CanonicalID)
    ensures HasEdge(Correlate(rule, pvID, affinity, infraPods), EdgeKey(pvID, ManagedByCSIController, p)) <==>
      exists pod | pod in infraPods :: pod.id == p && IsController(rule, pod)
  {
    hide HasEdge, Flat, IsController, IsAgent;
    var k := EdgeKey(pvID, ManagedByCSIController, p);
    FlatHas(infraPods, PodCorrelation(rule, pvID, affinity), k);
    forall pod: Node
      ensures HasEdge(PodCorrelation(rule, pvID, affinity)(pod), k) <==> pod.id == p && IsController(rule, pod)
    {
      OneHas(Edge(pvID, pod.id, ManagedByCSIController, "csi-component-rule/" + rule.driver + "/pv-controller/v1"), k);
      OneHas(Edge(pvID, pod.id, ServedByCSINodeAgent, "csi-component-rule/" + rule.driver + "/pv-agent/v1"), k);
    }
  }

  lemma ControllersAmongPods(c: Text, rule: CSIRule, pods: seq<KubePod>, p: CanonicalID)
    ensures (exists node | node in Flat(pods, PodNodeF(c)) :: node.id == p && IsController(rule, node)) <==>
      exists pod | pod in pods :: PodID(c, pod) == p && ControllerPod(rule, pod)
  {
    PodNodesAre(c, pods);
    hide Flat, PodID, IsController, ControllerPod;
    forall pod | pod in pods
      ensures PodNode(c, pod).id == PodID(c, pod) && (IsController(rule, PodNode(c, pod)) <==> ControllerPod(rule, pod))
    {
      ComponentsAre(c, rule, pod);
    }
    hide PodNode;
  }

  lemma AgentsAmongPods(c: Text, rule: CSIRule, pods: seq<KubePod>, agent: CanonicalID, n: string)
    ensures AgentOn(rule, Flat(pods, PodNodeF(c)), agent, n) <==>
      n != "" && exists pod | pod in pods :: PodID(c, pod) == agent && AgentPod(rule, pod) && pod.nodeName == n
  {
    PodNodesAre(c, pods);
    hide Flat, PodID, IsAgent, AgentPod;
    forall pod | pod in pods
      ensures PodNode(c, pod).id == PodID(c, pod) && NodeNameAttribute(PodNode(c, pod)) == pod.nodeName
      ensures IsAgent(rule, PodNode(c, pod)) <==> AgentPod(rule, pod)
    {
      ComponentsAre(c, rule, pod);
    }
    hide PodNode, NodeNameAttribute;
  }

  /** One volume's links under a rule. */
  lemma CorrelationSays(c: Text, s: Snapshot, pv: KubePV, rule: CSIRule, k: EdgeKey)
    requires k.kind in {ManagedByCSIController, ServedByCSINodeAgent}
    ensures HasEdge(CorrelatePVToCSIComponents(rule, PVID(c, pv), AgentNodeNames(pv, s), Flat(s.pods, PodNodeF(c))), k) <==>
      k.from == PVID(c, pv) && exists pod | pod in s.pods :: PodID(c, pod) == k.to && Tends(s, pv, k.kind, rule, pod)
  {
    hide CorrelatePVToCSIComponents, AgentNodeNames, Flat, PVID, PodID, ControllerPod, AgentPod, VolumeNode, TrimSpace, AgentOn;
    var names, infraPods := AgentNodeNames(pv, s), Flat(s.pods, PodNodeF(c));
    CorrelationStarts(rule, PVID(c, pv), names, infraPods);
    if k.kind == ManagedByCSIController {
      ControllersCorrelate(rule, PVID(c, pv), names, infraPods, k.to);
      ControllersAmongPods(c, rule, s.pods, k.to);
    } else {
      ServedExactlyByAgentsOnItsNodes(rule, PVID(c, pv), names, infraPods, k.to);
      forall n
        ensures n in names <==> VolumeNode(s, pv, n)
        ensures n in names ==> TrimSpace(n) == n != ""
        ensures AgentOn(rule, infraPods, k.to, n) <==>
          n != "" && exists pod | pod in s.pods :: PodID(c, pod) == k.to && AgentPod(rule, pod) && pod.nodeName == n
      {
        AgentNodesAreTheVolumes(s, pv, n);
        if n in names { VolumeNodesAreTrimmed(s, pv, n); }
        AgentsAmongPods(c, rule, s.pods, k.to, n);
      }
    }
  }

  /** The rule names the pod as a controller of the volume, or as an agent, and then it runs on one of the volume's nodes. */
  ghost predicate Tends(s: Snapshot, pv: KubePV, kind: EdgeKind, rule: CSIRule, pod: KubePod) {
    if kind == ManagedByCSIController then ControllerPod(rule, pod) else AgentPod(rule, pod) && VolumeNode(s, pv, pod.nodeName)
  }

  lemma VolumeSays(c: Text, rules: seq<CSIRule>, s: Snapshot, pv: KubePV, k: EdgeKey)
    requires StorageNamesIdentify(c, s) && pv in s.pvs && k.kind in {ManagedByCSIController, ServedByCSINodeAgent}
    ensures HasEdge(PVComponentEdgesF(StorageMapsOf(c, rules, s), rules, s, Flat(s.pods, PodNodeF(c)))(pv), k) <==>
      PVID(c, pv) == k.from && exists driver, rule, pod | pod in s.pods ::
        DriverOf(pv, driver) && LastRule(rules, driver, rule) && PodID(c, pod) == k.to && Tends(s, pv, k.kind, rule, pod)
  {
    VolumeContributes(c, rules, s, pv);
    RuleOfVolume(pv, rules);
    hide CorrelatePVToCSIComponents, AgentNodeNames, Flat, PVID, PodID, Tends, StorageMapsOf, PVComponentEdgesF, CsiValue, Correlator,
         LastRule, DriverOf, HasEdge, StorageNamesIdentify;
    var driver := CsiValue(pv, "driver");
    if driver != "" && Correlator(driver, rules).Rule? {
      var rule := Correlator(driver, rules).rule;
      CorrelationSays(c, s, pv, rule, k);
      assert DriverOf(pv, driver) && LastRule(rules, driver, rule);
    } else {
      assert forall d, rule :: !(DriverOf(pv, d) && LastRule(rules, d, rule));
      OneHas(NewEdge(k.from, k.to, k.kind), k);
    }
  }

  /** The rule a volume's pods are looked up by. */
  lemma RuleOfVolume(pv: KubePV, rules: seq<CSIRule>)
    ensures var driver := CsiValue(pv, "driver");
            forall d, rule :: DriverOf(pv, d) && LastRule(rules, d, rule) <==> d == driver && d != "" && Correlator(d, rules) == Rule(rule)
  {
    hide LastRule, Correlator;
    var driver := CsiValue(pv, "driver");
    if driver != "" {
      forall rule { LastRuleIs(driver, rules, rule); }
    }
  }

  lemma VolumeContributes(c: Text, rules: seq<CSIRule>, s: Snapshot, pv: KubePV)
    requires StorageNamesIdentify(c, s) && pv in s.pvs
    ensures var driver, infraPods := CsiValue(pv, "driver"), Flat(s.pods, PodNodeF(c));
            PVComponentEdgesF(StorageMapsOf(c, rules, s), rules, s, infraPods)(pv) ==
              if driver == "" then []
              else match Correlator(driver, rules)
                   case NoRule => []
                   case Rule(rule) => CorrelatePVToCSIComponents(rule, PVID(c, pv), AgentNodeNames(pv, s), infraPods)
  {
    VolumeIsListed(c, s, pv);
    hide CorrelatePVToCSIComponents, AgentNodeNames, Flat, PVID, CSIDriverIDs, PVCIDs, PVIDs, StorageClassIDs, CsiValue, Correlator, PodNodeF;
  }

  // ---- The storage passes ----

  lemma StoragePassKinds(m: StorageMaps, rules: seq<CSIRule>, s: Snapshot, infraPods: seq<Node>, order: seq<string>, names: map<string, string>)
    ensures EdgesIn(Flat(s.pvcs, PVCEdgesF(m, s)), {BoundToPV, UsesStorageClass}) && EdgesIn(Flat(s.pvs, PVEdgesF(m)), {UsesStorageClass})
    ensures EdgesIn(Flat(s.storageClasses, StorageClassEdgesF(m)), {ProvisionedByCSIDriver})
    ensures EdgesIn(Flat(s.pvs, PVComponentEdgesF(m, rules, s, infraPods)), {ManagedByCSIController, ServedByCSINodeAgent})
    ensures EdgesIn(Flat(order, DriverEdgesF(m, rules, infraPods, names)), {ImplementedByCSIController, ImplementedByCSINodeAgent})
  {
    hide InferCSIComponentEdges, CorrelatePVToCSIComponents, AgentNodeNames, StorageClassNameForPVC, Flat;
    FlatEdgesIn(s.pvcs, PVCEdgesF(m, s), {BoundToPV, UsesStorageClass});
    FlatEdgesIn(s.pvs, PVEdgesF(m), {UsesStorageClass});
    FlatEdgesIn(s.storageClasses, StorageClassEdgesF(m), {ProvisionedByCSIDriver});
    forall rule, id, ns {:trigger CorrelatePVToCSIComponents(rule, id, ns, infraPods)} { CorrelationKinds(rule, id, ns, infraPods); }
    FlatEdgesIn(s.pvs, PVComponentEdgesF(m, rules, s, infraPods), {ManagedByCSIController, ServedByCSINodeAgent});
    forall id, name {:trigger InferCSIComponentEdges(id, name, infraPods, rules)} { DriverEdgeKinds(id, name, infraPods, rules); }
    FlatEdgesIn(order, DriverEdgesF(m, rules, infraPods, names), {ImplementedByCSIController, ImplementedByCSINodeAgent});
  }

  /** Each kind of storage edge comes from its own pass. */
  lemma StorageHas(m: StorageMaps, rules: seq<CSIRule>, s: Snapshot, infraPods: seq<Node>, order: seq<string>, names: map<string, string>, k: EdgeKey)
    ensures var es := StorageEdges(m, rules, s, infraPods, order, names);
            && (k.kind == BoundToPV ==> (HasEdge(es, k) <==> HasEdge(Flat(s.pvcs, PVCEdgesF(m, s)), k)))
            && (k.kind == UsesStorageClass ==> (HasEdge(es, k) <==> HasEither(Flat(s.pvcs, PVCEdgesF(m, s)), Flat(s.pvs, PVEdgesF(m)), k)))
            && (k.kind == ProvisionedByCSIDriver ==> (HasEdge(es, k) <==> HasEdge(Flat(s.storageClasses, StorageClassEdgesF(m)), k)))
            && (k.kind in {ManagedByCSIController, ServedByCSINodeAgent} ==>
                  (HasEdge(es, k) <==> HasEdge(Flat(s.pvs, PVComponentEdgesF(m, rules, s, infraPods)), k)))
            && (k.kind in {ImplementedByCSIController, ImplementedByCSINodeAgent} ==>
                  (HasEdge(es, k) <==> HasEdge(Flat(order, DriverEdgesF(m, rules, infraPods, names)), k)))
  {
    StoragePassKinds(m, rules, s, infraPods, order, names);
    hide Flat, PVComponentEdgesF, PVCEdgesF, PVEdgesF, StorageClassEdgesF, DriverEdgesF, HasEdge, EdgesIn;
    var a, b, d := Flat(s.pvcs, PVCEdgesF(m, s)), Flat(s.pvs, PVEdgesF(m)), Flat(s.storageClasses, StorageClassEdgesF(m));
    var served, drivers := Flat(s.pvs, PVComponentEdgesF(m, rules, s, infraPods)), Flat(order, DriverEdgesF(m, rules, infraPods, names));
    KindDecides(a, {BoundToPV, UsesStorageClass}, k);
    KindDecides(b, {UsesStorageClass}, k);
    KindDecides(d, {ProvisionedByCSIDriver}, k);
    KindDecides(served, {ManagedByCSIController, ServedByCSINodeAgent}, k);
    KindDecides(drivers, {ImplementedByCSIController, ImplementedByCSINodeAgent}, k);
    HasAppend(a, b, k);
    HasAppend(a + b, d, k);
    HasAppend(a + b + d, served, k);
    HasAppend(a + b + d + served, drivers, k);
  }

  lemma ClaimPassBinds(c: Text, rules: seq<CSIRule>, s: Snapshot, k: EdgeKey)
    requires StorageNamesIdentify(c, s) && k.kind == BoundToPV
    ensures HasEdge(Flat(s.pvcs, PVCEdgesF(StorageMapsOf(c, rules, s), s)), k) <==> BindsVolume(c, s, k.from, k.to)
  {
    hide Flat, HasEdge, PVCEdgesF, StorageMapsOf, PVCID, PVID, StorageNamesIdentify;
    FlatHas(s.pvcs, PVCEdgesF(StorageMapsOf(c, rules, s), s), k);
    forall claim | claim in s.pvcs { ClaimBinds(c, rules, s, claim, k); }
  }

  lemma ClassPassesSay(c: Text, rules: seq<CSIRule>, s: Snapshot, k: EdgeKey)
    requires StorageNamesIdentify(c, s) && k.kind == UsesStorageClass
    ensures HasEither(Flat(s.pvcs, PVCEdgesF(StorageMapsOf(c, rules, s), s)), Flat(s.pvs, PVEdgesF(StorageMapsOf(c, rules, s))), k) <==> InClass(c, s, k.from, k.to)
  {
    hide Flat, HasEdge, PVCEdgesF, PVEdgesF, StorageMapsOf, PVCID, PVID, StorageClassID, HasClass, StorageNamesIdentify;
    FlatHas(s.pvcs, PVCEdgesF(StorageMapsOf(c, rules, s), s), k);
    FlatHas(s.pvs, PVEdgesF(StorageMapsOf(c, rules, s)), k);
    forall claim | claim in s.pvcs { ClaimUsesClass(c, rules, s, claim, k); }
    forall pv | pv in s.pvs { VolumeUsesClass(c, rules, s, pv, k); }
  }

  lemma ProvisionPassSays(c: Text, rules: seq<CSIRule>, s: Snapshot, k: EdgeKey)
    requires StorageNamesIdentify(c, s) && k.kind == ProvisionedByCSIDriver
    ensures HasEdge(Flat(s.storageClasses, StorageClassEdgesF(StorageMapsOf(c, rules, s))), k) <==> Provisioned(c, rules, s, k.from, k.to)
  {
    hide Flat, HasEdge, StorageClassEdgesF, StorageMapsOf, StorageClassID, IsDriver, StorageNamesIdentify;
    FlatHas(s.storageClasses, StorageClassEdgesF(StorageMapsOf(c, rules, s)), k);
    forall sc | sc in s.storageClasses { ClassIsProvisioned(c, rules, s, sc, k); }
  }

  lemma VolumePassSays(c: Text, rules: seq<CSIRule>, s: Snapshot, k: EdgeKey)
    requires StorageNamesIdentify(c, s) && k.kind in {ManagedByCSIController, ServedByCSINodeAgent}
    ensures HasEdge(Flat(s.pvs, PVComponentEdgesF(StorageMapsOf(c, rules, s), rules, s, Flat(s.pods, PodNodeF(c)))), k) <==>
      if k.kind == ManagedByCSIController then ControlsVolume(c, rules, s, k.from, k.to) else ServesVolume(c, rules, s, k.from, k.to)
  {
    hide Flat, HasEdge, PVComponentEdgesF, StorageMapsOf, PVID, PodID, DriverOf, LastRule, ControllerPod, AgentPod, VolumeNode, StorageNamesIdentify;
    FlatHas(s.pvs, PVComponentEdgesF(StorageMapsOf(c, rules, s), rules, s, Flat(s.pods, PodNodeF(c))), k);
    forall pv | pv in s.pvs { VolumeSays(c, rules, s, pv, k); }
  }

  // ---- The theorems ----

  ghost predicate StorageSays(c: Text, rules: seq<CSIRule>, s: Snapshot, k: EdgeKey)
    requires k.kind in STORAGE_EDGES
  {
    match k.kind
    case BoundToPV => BindsVolume(c, s, k.from, k.to)
    case UsesStorageClass => InClass(c, s, k.from, k.to)
    case ProvisionedByCSIDriver => Provisioned(c, rules, s, k.from, k.to)
    case ManagedByCSIController => ControlsVolume(c, rules, s, k.from, k.to)
    case ServedByCSINodeAgent => ServesVolume(c, rules, s, k.from, k.to)
    case ImplementedByCSIController => ImplementsAsController(c, rules, s, k.from, k.to)
    case ImplementedByCSINodeAgent => ImplementsAsAgent(c, rules, s, k.from, k.to)
  }

  lemma ComponentPassSays(c: Text, rules: seq<CSIRule>, x: Inferred, s: Snapshot, order: seq<string>, k: EdgeKey)
    requires InferredShape(x) && SR.SeparateDrivers(s) && StorageNamesIdentify(c, s) && IsEnumeration(order, CSIDriverIDs(c, rules, s))
    requires k.kind in {ImplementedByCSIController, ImplementedByCSINodeAgent}
    ensures HasEdge(Flat(order, DriverEdgesF(StorageMapsOf(c, rules, s), rules, Flat(s.pods, PodNodeF(c)), BuildDriverNames(c, rules, x, s))), k)
      <==> StorageSays(c, rules, s, k)
  {
    hide Flat, HasEdge, DriverEdgesF, StorageMapsOf, IsDriver, FirstRule, ControllerPod, AgentPod, PodID, CSIDriverIDs, IsEnumeration, BuildNodes,
         DriverName, Namespaced, ClusterWide, SR.SeparateDrivers, InferredShape;
    forall d | d in CSIDriverIDs(c, rules, s) { SR.BuildNameIs(c, rules, x, s, d); }
    DriversHave(c, rules, s, order, BuildDriverNames(c, rules, x, s), k);
  }

  /** A rebuild stores exactly the storage links the snapshot speaks of. */
  lemma RebuildShowsStorageLinks(c: Text, rules: seq<CSIRule>, x: Inferred, s: Snapshot, order: seq<string>, evidence: seq<Edge>, k: EdgeKey)
    requires InferredShape(x) && EdgesIn(evidence, {AffectedByWebhook}) && StorageNamesIdentify(c, s) && k.kind in STORAGE_EDGES
    requires SR.SeparateDrivers(s) && IsEnumeration(order, CSIDriverIDs(c, rules, s))
    ensures k in Rebuilt(c, rules, x, s, order, evidence).edges <==> StorageSays(c, rules, s, k)
  {
    hide Rebuilt, Flat, HasEdge, HasEither, PodEdgesF, ImageEdgesF, ServiceEdgesF, StorageEdges, StorageMapsOf, BuildDriverNames, PVCEdgesF, PVEdgesF,
         StorageClassEdgesF, PVComponentEdgesF, DriverEdgesF, CSIDriverIDs, IsEnumeration, SR.SeparateDrivers, StorageNamesIdentify, InferredShape,
         BindsVolume, InClass, Provisioned, ControlsVolume, ServesVolume, ImplementsAsController, ImplementsAsAgent;
    RebuiltHas(c, rules, x, s, order, evidence, k);
    StorageHas(StorageMapsOf(c, rules, s), rules, s, Flat(s.pods, PodNodeF(c)), order, BuildDriverNames(c, rules, x, s), k);
    if k.kind == BoundToPV {
      ClaimPassBinds(c, rules, s, k);
    } else if k.kind == UsesStorageClass {
      ClassPassesSay(c, rules, s, k);
    } else if k.kind == ProvisionedByCSIDriver {
      ProvisionPassSays(c, rules, s, k);
    } else if k.kind in {ManagedByCSIController, ServedByCSINodeAgent} {
      VolumePassSays(c, rules, s, k);
    } else {
      ComponentPassSays(c, rules, x, s, order, k);
    }
  }

  /** From any prior graph, and for any map order of the drivers, a storage update leaves exactly those links. */
  lemma UpdateShowsStorageLinks(g: Graph, c: Text, rules: seq<CSIRule>, s: Snapshot, order: seq<string>, k: EdgeKey)
    requires g.Valid() && SR.UniquePods(c, s.pods) && SR.SeparateDrivers(s) && StorageNamesIdentify(c, s) && k.kind in STORAGE_EDGES
    requires IsEnumeration(order, CSIDriverIDs(c, rules, s))
    ensures k in Storage.Reconciled(g, c, rules, s, order).edges <==> StorageSays(c, rules, s, k)
  {
    hide Storage.Reconciled, Rebuilt, StorageSays, Only, SR.UniquePods, SR.SeparateDrivers, IsEnumeration, CSIDriverIDs, StorageNamesIdentify;
    var x := Inferred([], [], []);
    SR.StorageUpdateMatchesRebuild(g, c, rules, x, s, order, order, []);
    RebuildShowsStorageLinks(c, rules, x, s, order, [], k);
    OnlyAgrees(Storage.Reconciled(g, c, rules, s, order).edges, Rebuilt(c, rules, x, s, order, []).edges, Storage.StorageKey(), k);
  }

  /** And exactly the mounts that the pods list. */
  lemma UpdateShowsMounts(g: Graph, c: Text, rules: seq<CSIRule>, s: Snapshot, order: seq<string>, p: CanonicalID, v: CanonicalID)
    requires g.Valid() && SR.SeparateDrivers(s) && PodNamesIdentify(c, s) && IsEnumeration(order, CSIDriverIDs(c, rules, s))
    ensures EdgeKey(p, MountsPVC, v) in Storage.Reconciled(g, c, rules, s, order).edges <==> Mounts(c, s, p, v)
  {
    hide Storage.Reconciled, Rebuilt, Mounts, Only, SR.UniquePods, SR.SeparateDrivers, IsEnumeration, CSIDriverIDs, PodNamesIdentify;
    var x, k := Inferred([], [], []), EdgeKey(p, MountsPVC, v);
    PodsAreUnique(c, s);
    SR.StorageUpdateMatchesRebuild(g, c, rules, x, s, order, order, []);
    RebuildShowsPodLinks(c, rules, x, s, order, [], k);
    OnlyAgrees(Storage.Reconciled(g, c, rules, s, order).edges, Rebuilt(c, rules, x, s, order, []).edges, Storage.StorageKey(), k);
  }
}
