/** Inference of the pods that implement a CSI driver and serve a volume. */
module Csi {
  import opened Identity
  import opened Strings
  import opened Sorting
  import opened GraphModel

  datatype CSIRule = CSIRule(
    driver: Text, componentNamespace: string, controllerPodPrefixes: seq<string>, nodeAgentPodPrefixes: seq<string>)

  datatype RuleResult = Rule(rule: CSIRule) | NoRule

  /** The first rule for the driver. */
  function RuleForDriver(driver: string, rules: seq<CSIRule>): RuleResult {
    if rules == [] then NoRule
    else if rules[0].driver == driver then Rule(rules[0])
    else RuleForDriver(driver, rules[1..])
  }

  /** The registry keeps the last rule with a given non-empty driver. */
  function Correlator(driver: string, rules: seq<CSIRule>): RuleResult {
    if rules == [] then NoRule
    else
      var last := rules[|rules| - 1];
      if last.driver != "" && last.driver == driver then Rule(last) else Correlator(driver, rules[..|rules| - 1])
  }

  predicate LooksLikeCSIProvisioner(provisioner: string) {
    && !HasPrefix(provisioner, "kubernetes.io/")
    && (|| HasPrefix(provisioner, "csi.") || Contains(provisioner, ".csi.") || Contains(provisioner, "-csi.")
        || Contains(provisioner, ".csi-") || HasSuffix(provisioner, ".csi"))
  }

  predicate IsCSIProvisioner(provisioner: string, observed: bool, rules: seq<CSIRule>) {
    provisioner != "" && (observed || RuleForDriver(provisioner, rules).Rule? || LooksLikeCSIProvisioner(provisioner))
  }

  predicate MatchesNamespace(rule: CSIRule, namespace: string) {
    rule.componentNamespace == "" || rule.componentNamespace == "*" || rule.componentNamespace == namespace
  }

  predicate IsController(rule: CSIRule, pod: Node) {
    pod.kind == Pod && MatchesNamespace(rule, pod.namespace) && HasAnyPrefix(pod.name, rule.controllerPodPrefixes)
  }

  /** A pod that matches both lists counts as controller only. */
  predicate IsAgent(rule: CSIRule, pod: Node) {
    pod.kind == Pod && MatchesNamespace(rule, pod.namespace) && !HasAnyPrefix(pod.name, rule.controllerPodPrefixes)
    && HasAnyPrefix(pod.name, rule.nodeAgentPodPrefixes)
  }

  function NodeNameAttribute(pod: Node): string {
    if "nodeName" in pod.attributes && pod.attributes["nodeName"].Str? then pod.attributes["nodeName"].s else ""
  }

  function PodCorrelation(rule: CSIRule, pvID: CanonicalID, affinity: string): Node -> seq<Edge> {
    (pod: Node) =>
      if IsController(rule, pod) then
        [Edge(pvID, pod.id, ManagedByCSIController, "csi-component-rule/" + rule.driver + "/pv-controller/v1")]
      else if IsAgent(rule, pod) && affinity != "" && NodeNameAttribute(pod) == affinity then
        [Edge(pvID, pod.id, ServedByCSINodeAgent, "csi-component-rule/" + rule.driver + "/pv-agent/v1")]
      else []
  }

  /** The edges of one volume for one node name. */
  function Correlate(rule: CSIRule, pvID: CanonicalID, affinity: string, infraPods: seq<Node>): seq<Edge> {
    Flat(infraPods, PodCorrelation(rule, pvID, affinity))
  }

  function DriverComponent(rule: CSIRule, driverID: CanonicalID): Node -> seq<Edge> {
    (pod: Node) =>
      if IsController(rule, pod) then
        [Edge(driverID, pod.id, ImplementedByCSIController, "csi-component-rule/" + rule.driver + "/v1")]
      else if IsAgent(rule, pod) then
        [Edge(driverID, pod.id, ImplementedByCSINodeAgent, "csi-component-rule/" + rule.driver + "/v1")]
      else []
  }

  function InferCSIComponentEdges(driverID: CanonicalID, driverName: string, infraPods: seq<Node>, rules: seq<CSIRule>): seq<Edge> {
    match RuleForDriver(driverName, rules)
    case NoRule => []
    case Rule(rule) => Flat(infraPods, DriverComponent(rule, driverID))
  }

  /** Trimmed, non-empty, each once, sorted. */
  function NormalizeNodeNames(names: seq<string>): seq<string> {
    SortStrings(TrimmedOnce(names))
  }

  function TrimmedOnce(names: seq<string>): seq<string> {
    if names == [] then []
    else
      var init, last := TrimmedOnce(names[..|names| - 1]), TrimSpace(names[|names| - 1]);
      if last == "" || last in init then init else init + [last]
  }

  lemma {:induction false} TrimmedOnceMembers(names: seq<string>)
    ensures forall n :: n in TrimmedOnce(names) <==> n != "" && exists m | m in names :: TrimSpace(m) == n
  {
    hide TrimSpace;
    if names != [] {
      var init, last := names[..|names| - 1], names[|names| - 1];
      TrimmedOnceMembers(init);
      assert forall m :: m in names <==> m in init || m == last;
      forall n
        ensures n in TrimmedOnce(names) <==> n != "" && exists m | m in names :: TrimSpace(m) == n
      {
        assert n in TrimmedOnce(names) <==> n in TrimmedOnce(init) || (n == TrimSpace(last) && n != "");
        if n == TrimSpace(last) {
          assert last in names;
        }
      }
    }
  }

  lemma NormalizedMembers(names: seq<string>)
    ensures forall n :: n in NormalizeNodeNames(names) <==> n != "" && exists m | m in names :: TrimSpace(m) == n
  {
    hide TrimmedOnce, SortBy;
    TrimmedOnceMembers(names);
    SortKeeps(TrimmedOnce(names), (x: string) => [x]);
    SameElements(TrimmedOnce(names), NormalizeNodeNames(names));
  }

  /** The first edge under each key. */
  function FirstPerKey(es: seq<Edge>): seq<Edge> {
    if es == [] then []
    else
      var init, last := FirstPerKey(es[..|es| - 1]), es[|es| - 1];
      if exists e | e in init :: e.Triple() == last.Triple() then init else init + [last]
  }

  lemma FirstPerKeyStep(es: seq<Edge>, e: Edge)
    ensures FirstPerKey(es + [e]) == FirstPerKey(es) + if forall x | x in FirstPerKey(es) :: x.Triple() != e.Triple() then [e] else []
  {
    assert (es + [e])[..|es|] == es;
  }

  lemma NoneFirst(f: string -> seq<Edge>)
    ensures FirstPerKey([]) == [] && Flat<string, Edge>([], f) == []
  {
  }

  ghost predicate HasEdge(edges: seq<Edge>, k: EdgeKey) {
    exists e | e in edges :: e.Triple() == k
  }

  lemma {:induction false} FirstPerKeyMembers(es: seq<Edge>)
    ensures forall k :: HasEdge(FirstPerKey(es), k) <==> HasEdge(es, k)
  {
    if es != [] {
      var init, last := es[..|es| - 1], es[|es| - 1];
      FirstPerKeyMembers(init);
      assert es == init + [last];
      assert forall k :: HasEdge(es, k) <==> HasEdge(init, k) || k == last.Triple();
      if !HasEdge(FirstPerKey(init), last.Triple()) {
        assert forall k :: HasEdge(FirstPerKey(init) + [last], k) <==> HasEdge(FirstPerKey(init), k) || k == last.Triple();
      }
    }
  }

  function CorrelateOn(rule: CSIRule, pvID: CanonicalID, infraPods: seq<Node>): string -> seq<Edge> {
    (name: string) => Correlate(rule, pvID, name, infraPods)
  }

  /** The edges of one volume over all node names, each key once. */
  function CorrelatePVToCSIComponents(rule: CSIRule, pvID: CanonicalID, nodeNames: seq<string>, infraPods: seq<Node>): seq<Edge> {
    var names := NormalizeNodeNames(nodeNames);
    if names == [] then Correlate(rule, pvID, "", infraPods)
    else FirstPerKey(Flat(names, CorrelateOn(rule, pvID, infraPods)))
  }

  /** The correlation as the source runs it. */
  method CorrelatePV(rule: CSIRule, pvID: CanonicalID, nodeNames: seq<string>, infraPods: seq<Node>) returns (edges: seq<Edge>)
    ensures edges == CorrelatePVToCSIComponents(rule, pvID, nodeNames, infraPods)
  {
    hide FirstPerKey, Flat, NormalizeNodeNames, Correlate;
    var names := NormalizeNodeNames(nodeNames);
    if |names| == 0 {
      edges := CorrelateOne(rule, pvID, "", infraPods);
      return;
    }
    edges := [];
    ghost var f := CorrelateOn(rule, pvID, infraPods);
    ghost var all: seq<Edge> := [];
    NoneFirst(f);
    for i := 0 to |names|
      invariant all == Flat(names[..i], f) && edges == FirstPerKey(all)
    {
      var found := CorrelateOne(rule, pvID, names[i], infraPods);
      ghost var before := all;
      for j := 0 to |found|
        invariant all == before + found[..j] && edges == FirstPerKey(all)
      {
        PrefixStep(found, j);
        FirstPerKeyStep(all, found[j]);
        all := all + [found[j]];
        if forall e | e in edges :: e.Triple() != found[j].Triple() {
          edges := edges + [found[j]];
        }
        assert all == before + found[..j + 1];
      }
      PrefixEnds(found);
      FlatStep(names, i, f);
    }
    PrefixEnds(names);
  }

  method CorrelateOne(rule: CSIRule, pvID: CanonicalID, affinity: string, infraPods: seq<Node>) returns (edges: seq<Edge>)
    ensures edges == Correlate(rule, pvID, affinity, infraPods)
  {
    edges := [];
    ghost var f := PodCorrelation(rule, pvID, affinity);
    for i := 0 to |infraPods|
      invariant edges == Flat(infraPods[..i], f)
    {
      FlatStep(infraPods, i, f);
      var pod := infraPods[i];
      if IsController(rule, pod) {
        edges := edges + [Edge(pvID, pod.id, ManagedByCSIController, "csi-component-rule/" + rule.driver + "/pv-controller/v1")];
        continue;
      }
      if IsAgent(rule, pod) && affinity != "" && NodeNameAttribute(pod) == affinity {
        edges := edges + [Edge(pvID, pod.id, ServedByCSINodeAgent, "csi-component-rule/" + rule.driver + "/pv-agent/v1")];
      }
    }
    PrefixEnds(infraPods);
  }

  /** `agent` is an agent pod running on the named node. */
  ghost predicate AgentOn(rule: CSIRule, infraPods: seq<Node>, agent: CanonicalID, nodeName: string) {
    nodeName != "" && exists pod | pod in infraPods :: pod.id == agent && IsAgent(rule, pod) && NodeNameAttribute(pod) == nodeName
  }

  /** A volume is served by exactly the agent pods on one of its node names, whatever the other pods are. */
  lemma ServedExactlyByAgentsOnItsNodes(rule: CSIRule, pvID: CanonicalID, nodeNames: seq<string>, infraPods: seq<Node>, agent: CanonicalID)
    ensures HasEdge(CorrelatePVToCSIComponents(rule, pvID, nodeNames, infraPods), EdgeKey(pvID, ServedByCSINodeAgent, agent))
      <==> exists m | m in nodeNames :: AgentOn(rule, infraPods, agent, TrimSpace(m))
  {
    var k := EdgeKey(pvID, ServedByCSINodeAgent, agent);
    var names := NormalizeNodeNames(nodeNames);
    NormalizedMembers(nodeNames);
    forall affinity { OneNodeServes(rule, pvID, affinity, infraPods, agent); }
    hide NormalizeNodeNames, IsAgent, TrimSpace, Correlate, FirstPerKey, NodeNameAttribute;
    assert (exists m | m in nodeNames :: AgentOn(rule, infraPods, agent, TrimSpace(m)))
      <==> (exists n | n in names :: AgentOn(rule, infraPods, agent, n)) by {
      forall m | m in nodeNames && AgentOn(rule, infraPods, agent, TrimSpace(m))
        ensures TrimSpace(m) in names
      {
      }
    }
    if names != [] {
      var all := Flat(names, CorrelateOn(rule, pvID, infraPods));
      FirstPerKeyMembers(all);
      FlatHasEdge(rule, pvID, names, infraPods, k);
    }
  }

  lemma FlatHasEdge(rule: CSIRule, pvID: CanonicalID, names: seq<string>, infraPods: seq<Node>, k: EdgeKey)
    ensures HasEdge(Flat(names, CorrelateOn(rule, pvID, infraPods)), k) <==>
            exists n | n in names :: HasEdge(Correlate(rule, pvID, n, infraPods), k)
  {
    hide Correlate;
    FlatMembers(names, CorrelateOn(rule, pvID, infraPods));
  }

  lemma OneNodeServes(rule: CSIRule, pvID: CanonicalID, affinity: string, infraPods: seq<Node>, agent: CanonicalID)
    ensures HasEdge(Correlate(rule, pvID, affinity, infraPods), EdgeKey(pvID, ServedByCSINodeAgent, agent)) <==>
            AgentOn(rule, infraPods, agent, affinity)
  {
    var f := PodCorrelation(rule, pvID, affinity);
    FlatMembers(infraPods, f);
    if AgentOn(rule, infraPods, agent, affinity) {
      var pod :| pod in infraPods && pod.id == agent && IsAgent(rule, pod) && NodeNameAttribute(pod) == affinity;
      assert f(pod)[0] in f(pod);
      assert f(pod)[0] in Flat(infraPods, f);
    }
  }
}
