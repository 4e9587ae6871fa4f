/** Nodes, edges and the mathematical value of a graph. */
module GraphModel {
  import opened Identity
  import opened Strings

  datatype NodeKind =
    | Cluster | Namespace | Workload | Pod | Container | NodeKindNode | Service | ConfigMap | Secret
    | ServiceAccount | RoleBinding | ClusterRoleBinding | PVC | PV | StorageClass | CSIDriver
    | HelmRelease | HelmChart | Event | Image | OCIArtifactMetadata | WebhookConfig

  function NodeKindName(kind: NodeKind): Text {
    match kind
    case Cluster => "Cluster"
    case Namespace => "Namespace"
    case Workload => "Workload"
    case Pod => "Pod"
    case Container => "Container"
    case NodeKindNode => "Node"
    case Service => "Service"
    case ConfigMap => "ConfigMap"
    case Secret => "Secret"
    case ServiceAccount => "ServiceAccount"
    case RoleBinding => "RoleBinding"
    case ClusterRoleBinding => "ClusterRoleBinding"
    case PVC => "PVC"
    case PV => "PV"
    case StorageClass => "StorageClass"
    case CSIDriver => "CSIDriver"
    case HelmRelease => "HelmRelease"
    case HelmChart => "HelmChart"
    case Event => "Event"
    case Image => "Image"
    case OCIArtifactMetadata => "OCIArtifactMetadata"
    case WebhookConfig => "WebhookConfig"
  }

  datatype EdgeKind =
    | BelongsToNamespace | ManagedBy | ControlledBy | OwnsPod | ScheduledOn | SelectsPod
    | SelectedByService | UsesConfigMap | UsesSecret | UsesServiceAccount | BoundByRoleBinding
    | MountsPVC | BoundToPV | UsesStorageClass | ProvisionedByCSIDriver | HasContainer | UsesImage
    | HasOCIArtifact | ReportedByEvent | AffectedByWebhook | ManagedByController | ServedByNodeDaemon
    | ImplementedByCSIController | ImplementedByCSINodeAgent | ServedByCSINodeAgent
    | ManagedByCSIController | ManagedByHelmRelease | InstallsChart | RelatedTo

  function EdgeKindName(kind: EdgeKind): string {
    match kind
    case BelongsToNamespace => "belongs_to_namespace"
    case ManagedBy => "managed_by"
    case ControlledBy => "controlled_by"
    case OwnsPod => "owns_pod"
    case ScheduledOn => "scheduled_on"
    case SelectsPod => "selects_pod"
    case SelectedByService => "selected_by_service"
    case UsesConfigMap => "uses_config_map"
    case UsesSecret => "uses_secret"
    case UsesServiceAccount => "uses_service_account"
    case BoundByRoleBinding => "bound_by_role_binding"
    case MountsPVC => "mounts_pvc"
    case BoundToPV => "bound_to_pv"
    case UsesStorageClass => "uses_storage_class"
    case ProvisionedByCSIDriver => "provisioned_by_csi_driver"
    case HasContainer => "has_container"
    case UsesImage => "uses_image"
    case HasOCIArtifact => "has_oci_artifact"
    case ReportedByEvent => "reported_by_event"
    case AffectedByWebhook => "affected_by_webhook"
    case ManagedByController => "managed_by_controller"
    case ServedByNodeDaemon => "served_by_node_daemon"
    case ImplementedByCSIController => "implemented_by_csi_controller"
    case ImplementedByCSINodeAgent => "implemented_by_csi_node_agent"
    case ServedByCSINodeAgent => "served_by_csi_node_agent"
    case ManagedByCSIController => "managed_by_csi_controller"
    case ManagedByHelmRelease => "managed_by_helm_release"
    case InstallsChart => "installs_chart"
    case RelatedTo => "related_to"
  }

  /** The values node attributes take. */
  datatype Value = Str(s: string) | Int(n: int) | Flag(b: bool) | Texts(ss: seq<string>) | Table(m: map<string, string>)

  datatype Node = Node(
    id: CanonicalID, kind: NodeKind, sourceKind: string, name: Text, namespace: Text, attributes: map<string, Value>)

  datatype EdgeKey = EdgeKey(from: CanonicalID, kind: EdgeKind, to: CanonicalID)

  /** An edge; `resolver` is the part of its provenance that callers choose, "" meaning the default of its kind. */
  datatype Edge = Edge(from: CanonicalID, to: CanonicalID, kind: EdgeKind, resolver: string) {
    function Triple(): EdgeKey { EdgeKey(from, kind, to) }
    /** The key under which the store keeps the edge. */
    function Key(): string { KeyString(Triple()) }
    predicate Touches(id: CanonicalID) { from == id || to == id }
  }

  function NewEdge(from: CanonicalID, to: CanonicalID, kind: EdgeKind): Edge {
    Edge(from, to, kind, "")
  }

  function KeyString(k: EdgeKey): string {
    k.from + "|" + EdgeKindName(k.kind) + "|" + k.to
  }

  // The names are checked in groups, to keep each check small.

  lemma BelongingNamesArePlain(kind: EdgeKind)
    requires kind in {BelongsToNamespace, ManagedBy, ControlledBy, OwnsPod}
    ensures '|' !in EdgeKindName(kind) && LettersOf(EdgeKindName(kind)) == KindLetters(kind)
  {
  }

  lemma SchedulingNamesArePlain(kind: EdgeKind)
    requires kind in {ScheduledOn, SelectsPod, SelectedByService}
    ensures '|' !in EdgeKindName(kind) && LettersOf(EdgeKindName(kind)) == KindLetters(kind)
  {
  }

  lemma UsingNamesArePlain(kind: EdgeKind)
    requires kind in {UsesConfigMap, UsesSecret, UsesServiceAccount}
    ensures '|' !in EdgeKindName(kind) && LettersOf(EdgeKindName(kind)) == KindLetters(kind)
  {
  }

  lemma BindingNamesArePlain(kind: EdgeKind)
    requires kind in {BoundByRoleBinding, MountsPVC, BoundToPV}
    ensures '|' !in EdgeKindName(kind) && LettersOf(EdgeKindName(kind)) == KindLetters(kind)
  {
  }

  lemma ClassNamesArePlain(kind: EdgeKind)
    requires kind in {UsesStorageClass, ProvisionedByCSIDriver}
    ensures '|' !in EdgeKindName(kind) && LettersOf(EdgeKindName(kind)) == KindLetters(kind)
  {
  }

  lemma ImageNamesArePlain(kind: EdgeKind)
    requires kind in {HasContainer, UsesImage, HasOCIArtifact}
    ensures '|' !in EdgeKindName(kind) && LettersOf(EdgeKindName(kind)) == KindLetters(kind)
  {
  }

  lemma EventNamesArePlain(kind: EdgeKind)
    requires kind in {ReportedByEvent, AffectedByWebhook}
    ensures '|' !in EdgeKindName(kind) && LettersOf(EdgeKindName(kind)) == KindLetters(kind)
  {
  }

  lemma ControllerNamesArePlain(kind: EdgeKind)
    requires kind in {ManagedByController, ServedByNodeDaemon}
    ensures '|' !in EdgeKindName(kind) && LettersOf(EdgeKindName(kind)) == KindLetters(kind)
  {
  }

  lemma CSIControllerNameIsPlain(kind: EdgeKind)
    requires kind == ImplementedByCSIController
    ensures '|' !in EdgeKindName(kind) && LettersOf(EdgeKindName(kind)) == KindLetters(kind)
  {
  }

  lemma CSIAgentNameIsPlain(kind: EdgeKind)
    requires kind == ImplementedByCSINodeAgent
    ensures '|' !in EdgeKindName(kind) && LettersOf(EdgeKindName(kind)) == KindLetters(kind)
  {
  }

  lemma AgentNamesArePlain(kind: EdgeKind)
    requires kind in {ServedByCSINodeAgent, ManagedByCSIController}
    ensures '|' !in EdgeKindName(kind) && LettersOf(EdgeKindName(kind)) == KindLetters(kind)
  {
  }

  lemma ReleaseNamesArePlain(kind: EdgeKind)
    requires kind in {ManagedByHelmRelease, InstallsChart, RelatedTo}
    ensures '|' !in EdgeKindName(kind) && LettersOf(EdgeKindName(kind)) == KindLetters(kind)
  {
  }

  lemma EdgeKindNameAvoidsSeparator(kind: EdgeKind)
    ensures '|' !in EdgeKindName(kind) && LettersOf(EdgeKindName(kind)) == KindLetters(kind)
  {
    hide EdgeKindName, KindLetters, LettersOf;
    match kind
    case BelongsToNamespace | ManagedBy | ControlledBy | OwnsPod => BelongingNamesArePlain(kind);
    case ScheduledOn | SelectsPod | SelectedByService => SchedulingNamesArePlain(kind);
    case UsesConfigMap | UsesSecret | UsesServiceAccount => UsingNamesArePlain(kind);
    case BoundByRoleBinding | MountsPVC | BoundToPV => BindingNamesArePlain(kind);
    case UsesStorageClass | ProvisionedByCSIDriver => ClassNamesArePlain(kind);
    case HasContainer | UsesImage | HasOCIArtifact => ImageNamesArePlain(kind);
    case ReportedByEvent | AffectedByWebhook => EventNamesArePlain(kind);
    case ManagedByController | ServedByNodeDaemon => ControllerNamesArePlain(kind);
    case ImplementedByCSIController => CSIControllerNameIsPlain(kind);
    case ImplementedByCSINodeAgent => CSIAgentNameIsPlain(kind);
    case ServedByCSINodeAgent | ManagedByCSIController => AgentNamesArePlain(kind);
    case ManagedByHelmRelease | InstallsChart | RelatedTo => ReleaseNamesArePlain(kind);
  }

  lemma NodeKindNameIsPlain(kind: NodeKind)
    ensures '/' !in NodeKindName(kind) && NodeKindName(kind) != ""
  {
  }

  /** Length and three letters tell the names apart. */
  datatype Letters = Letters(size: nat, first: char, second: char, late: char)

  function LettersOf(name: string): Letters {
    Letters(|name|, if |name| > 0 then name[0] else ' ', if |name| > 1 then name[1] else ' ', if |name| > 19 then name[19] else ' ')
  }

  function KindLetters(kind: EdgeKind): Letters {
    match kind
    case BelongsToNamespace => Letters(20, 'b', 'e', 'e')
    case ManagedBy => Letters(10, 'm', 'a', ' ')
    case ControlledBy => Letters(13, 'c', 'o', ' ')
    case OwnsPod => Letters(8, 'o', 'w', ' ')
    case ScheduledOn => Letters(12, 's', 'c', ' ')
    case SelectsPod => Letters(11, 's', 'e', ' ')
    case SelectedByService => Letters(19, 's', 'e', ' ')
    case UsesConfigMap => Letters(15, 'u', 's', ' ')
    case UsesSecret => Letters(11, 'u', 's', ' ')
    case UsesServiceAccount => Letters(20, 'u', 's', 't')
    case BoundByRoleBinding => Letters(21, 'b', 'o', 'n')
    case MountsPVC => Letters(10, 'm', 'o', ' ')
    case BoundToPV => Letters(11, 'b', 'o', ' ')
    case UsesStorageClass => Letters(18, 'u', 's', ' ')
    case ProvisionedByCSIDriver => Letters(25, 'p', 'r', 'd')
    case HasContainer => Letters(13, 'h', 'a', ' ')
    case UsesImage => Letters(10, 'u', 's', ' ')
    case HasOCIArtifact => Letters(16, 'h', 'a', ' ')
    case ReportedByEvent => Letters(17, 'r', 'e', ' ')
    case AffectedByWebhook => Letters(19, 'a', 'f', ' ')
    case ManagedByController => Letters(21, 'm', 'a', 'e')
    case ServedByNodeDaemon => Letters(21, 's', 'e', 'o')
    case ImplementedByCSIController => Letters(29, 'i', 'm', 'c')
    case ImplementedByCSINodeAgent => Letters(29, 'i', 'm', 'n')
    case ServedByCSINodeAgent => Letters(24, 's', 'e', 'a')
    case ManagedByCSIController => Letters(25, 'm', 'a', 'r')
    case ManagedByHelmRelease => Letters(23, 'm', 'a', 'e')
    case InstallsChart => Letters(14, 'i', 'n', ' ')
    case RelatedTo => Letters(10, 'r', 'e', ' ')
  }

  lemma KindLettersAreDistinct(a: EdgeKind, b: EdgeKind)
    requires KindLetters(a) == KindLetters(b)
    ensures a == b
  {
  }

  lemma EdgeKindNameIsInjective(a: EdgeKind, b: EdgeKind)
    requires EdgeKindName(a) == EdgeKindName(b)
    ensures a == b
  {
    hide EdgeKindName, KindLetters;
    EdgeKindNameAvoidsSeparator(a);
    EdgeKindNameAvoidsSeparator(b);
    KindLettersAreDistinct(a, b);
  }

  lemma NodeKindNameIsInjective(a: NodeKind, b: NodeKind)
    requires NodeKindName(a) == NodeKindName(b)
    ensures a == b
  {
    assert |NodeKindName(a)| == |NodeKindName(b)|;
  }

  lemma KeyStringParts(k: EdgeKey)
    ensures KeyString(k) == k.from + "|" + (EdgeKindName(k.kind) + "|" + k.to)
  {
    hide EdgeKindName;
  }

  /** Edge keys are injective because no component holds the separator. */
  lemma KeyStringIsInjective(a: EdgeKey, b: EdgeKey)
    requires KeyString(a) == KeyString(b)
    ensures a == b
  {
    hide EdgeKindName;
    var x, y := EdgeKindName(a.kind) + "|" + a.to, EdgeKindName(b.kind) + "|" + b.to;
    KeyStringParts(a);
    KeyStringParts(b);
    hide KeyString;
    CutIsUnique(a.from, b.from, x, y, '|');
    EdgeKindNameAvoidsSeparator(a.kind);
    EdgeKindNameAvoidsSeparator(b.kind);
    CutIsUnique(EdgeKindName(a.kind), EdgeKindName(b.kind), a.to, b.to, '|');
    EdgeKindNameIsInjective(a.kind, b.kind);
  }

  /** On raw strings the key is ambiguous: the separator inside an endpoint moves the cut. */
  lemma SeparatorsInEndpointsCollide(from: string, to: string)
    ensures var name: string := EdgeKindName(OwnsPod);
            var longFrom, longTo := from + "|" + name + "|" + to, to + "|" + name + "|" + to;
            longFrom != from && longFrom + "|" + name + "|" + to == from + "|" + name + "|" + longTo
  {
    var name: string := EdgeKindName(OwnsPod);
    assert |from + "|" + name + "|" + to| > |from|;
    assert (from + "|" + name + "|" + to) + "|" + name + "|" + to == from + "|" + name + "|" + (to + "|" + name + "|" + to);
  }

  /** An edge whose endpoints may hold anything. */
  datatype RawEdge = RawEdge(from: string, kind: EdgeKind, to: string) {
    function Key(): string { from + "|" + EdgeKindName(kind) + "|" + to }
  }

  /** A kind's name between separators. */
  function Bars(kind: EdgeKind): string { "|" + EdgeKindName(kind) + "|" }

  predicate Occurs(part: string, s: string) {
    exists i | 0 <= i <= |s| - |part| :: s[i..][..|part|] == part
  }

  /** Somewhere else in the key a kind's name stands between separators. */
  predicate HasOtherCut(e: RawEdge) {
    exists k: EdgeKind :: Occurs(Bars(k), e.from + "|") || Occurs(Bars(k), "|" + e.to)
  }

  lemma BarsAtEnds(kind: EdgeKind)
    ensures var b := Bars(kind);
            |b| >= 2 && b[0] == b[|b| - 1] == '|' && forall i | 0 < i < |b| - 1 :: b[i] != '|'
  {
    EdgeKindNameAvoidsSeparator(kind);
    hide EdgeKindName;
    var name := EdgeKindName(kind);
    assert |Bars(kind)| == |name| + 2;
    assert forall i | 0 < i < |Bars(kind)| - 1 :: Bars(kind)[i] == name[i - 1] && name[i - 1] in name;
  }

  lemma KeyAroundBars(e: RawEdge)
    ensures e.Key() == e.from + Bars(e.kind) + e.to
  {
    hide EdgeKindName;
  }

  lemma Regroup(a: string, b: string, x: string, y: string, z: string, s: string)
    requires s == a + b + x
    ensures s + y + z == a + b + (x + y + z) && y + z + s == (y + z + a) + b + x
  {
    assert s + y + z == a + b + x + y + z;
    assert y + z + s == y + z + a + b + x;
  }

  lemma SplitAround(s: string, i: nat, part: string)
    requires i <= |s| - |part| && s[i..][..|part|] == part
    ensures s == s[..i] + part + s[i + |part|..]
  {
  }

  lemma CutEarlier(e: RawEdge, k: EdgeKind) returns (f: RawEdge)
    requires Occurs(Bars(k), e.from + "|")
    ensures f != e && f.Key() == e.Key()
  {
    var s, b := e.from + "|", Bars(k);
    assert |b| >= 2 by { BarsAtEnds(k); }
    hide EdgeKindName, Bars;
    var i :| 0 <= i <= |s| - |b| && s[i..][..|b|] == b;
    var name, rest := EdgeKindName(e.kind), s[i + |b|..];
    f := RawEdge(s[..i], k, rest + name + ("|" + e.to));
    KeyAroundBars(f);
    SplitAround(s, i, b);
    Regroup(s[..i], b, rest, name, "|" + e.to, s);
    assert e.Key() == s + name + ("|" + e.to);
  }

  lemma CutLater(e: RawEdge, k: EdgeKind) returns (f: RawEdge)
    requires Occurs(Bars(k), "|" + e.to)
    ensures f != e && f.Key() == e.Key()
  {
    var s, b := "|" + e.to, Bars(k);
    hide EdgeKindName, Bars;
    var i :| 0 <= i <= |s| - |b| && s[i..][..|b|] == b;
    var name, rest := EdgeKindName(e.kind), s[i + |b|..];
    f := RawEdge((e.from + "|") + name + s[..i], k, rest);
    KeyAroundBars(f);
    SplitAround(s, i, b);
    Regroup(s[..i], b, rest, e.from + "|", name, s);
    assert e.Key() == (e.from + "|") + name + s;
  }

  lemma CutsInOnePlace(e: RawEdge, f: RawEdge)
    requires e.Key() == f.Key() && |e.from| == |f.from|
    ensures e == f
  {
    hide EdgeKindName;
    assert e.from == e.Key()[..|e.from|] && f.from == f.Key()[..|f.from|];
    var x, y := EdgeKindName(e.kind) + "|" + e.to, EdgeKindName(f.kind) + "|" + f.to;
    assert e.Key()[|e.from| + 1..] == x && f.Key()[|f.from| + 1..] == y;
    EdgeKindNameAvoidsSeparator(e.kind);
    EdgeKindNameAvoidsSeparator(f.kind);
    CutIsUnique(EdgeKindName(e.kind), EdgeKindName(f.kind), e.to, f.to, '|');
    EdgeKindNameIsInjective(e.kind, f.kind);
  }

  /** A part that starts before a separator and holds none inside ends there at the latest. */
  lemma PartEndsThere(a: string, x: string, t: string, p: string, b: string, u: string)
    requires a + x + t == p + b + u && |p| < |a| && x != "" && x[0] == '|'
    requires |b| >= 2 && forall i | 0 < i < |b| - 1 :: b[i] != '|'
    ensures |p| + |b| <= |a| + 1 && (a + "|")[|p|..][..|b|] == b
  {
    var s := p + b + u;
    assert s[|a|] == (a + x + t)[|a|] == '|';
    assert s[..|a| + 1] == (a + x + t)[..|a| + 1] == a + "|";
    assert s[|p|..|p| + |b|] == b;
    assert forall i | 0 < i < |b| - 1 :: s[|p| + i] == b[i];
    assert (a + "|")[|p|..][..|b|] == s[|p|..|p| + |b|];
  }

  lemma CutsEarlier(e: RawEdge, f: RawEdge)
    requires e.Key() == f.Key() && |f.from| < |e.from|
    ensures Occurs(Bars(f.kind), e.from + "|")
  {
    hide EdgeKindName, Bars;
    KeyAroundBars(e);
    KeyAroundBars(f);
    BarsAtEnds(e.kind);
    BarsAtEnds(f.kind);
    PartEndsThere(e.from, Bars(e.kind), e.to, f.from, Bars(f.kind), f.to);
    var b, i := Bars(f.kind), |f.from|;
    assert (e.from + "|")[i..][..|b|] == b;
  }

  lemma CutsLater(e: RawEdge, f: RawEdge)
    requires e.Key() == f.Key() && |f.from| > |e.from|
    ensures Occurs(Bars(f.kind), "|" + e.to)
  {
    hide EdgeKindName, Bars;
    KeyAroundBars(e);
    KeyAroundBars(f);
    BarsAtEnds(e.kind);
    BarsAtEnds(f.kind);
    var key, b, n := e.Key(), Bars(f.kind), |e.from| + |Bars(e.kind)| - 1;
    assert f.Key()[|f.from|..] == b + f.to;
    assert key[|f.from|] == b[0];
    assert forall j | |e.from| < j < n :: key[j] == Bars(e.kind)[j - |e.from|];
    assert key[n..] == "|" + e.to;
    var i := |f.from| - n;
    assert ("|" + e.to)[i..] == key[|f.from|..];
  }

  /** A raw edge shares its key with another exactly when its key can be cut elsewhere. */
  lemma SharesKeyExactlyWhenCutElsewhere(e: RawEdge)
    ensures (exists f: RawEdge :: f != e && f.Key() == e.Key()) <==> HasOtherCut(e)
  {
    hide EdgeKindName, Bars, Occurs;
    if HasOtherCut(e) {
      var k: EdgeKind :| Occurs(Bars(k), e.from + "|") || Occurs(Bars(k), "|" + e.to);
      if Occurs(Bars(k), e.from + "|") {
        var f := CutEarlier(e, k);
      } else {
        var f := CutLater(e, k);
      }
    }
    forall f: RawEdge | f != e && f.Key() == e.Key()
      ensures HasOtherCut(e)
    {
      if |f.from| == |e.from| {
        CutsInOnePlace(e, f);
      } else if |f.from| < |e.from| {
        CutsEarlier(e, f);
      } else {
        CutsLater(e, f);
      }
    }
  }

  /** The identifier of a resource of the given kind. */
  function ResourceID(cluster: Text, group: Text, kind: NodeKind, namespace: Text, name: Text, uid: Text): (id: CanonicalID)
    ensures KindTag(id) == NodeKindName(kind)
  {
    var ref := ResourceRef(cluster, group, NodeKindName(kind), namespace, name, uid, "");
    KindTagOfID(ref);
    NodeKindNameIsPlain(kind);
    NewCanonicalID(ref)
  }

  /** Equal identifiers come from fields that agree after normalisation. */
  lemma ResourceIDDetermines(cluster: Text, group: Text, kind: NodeKind, ns1: Text, name1: Text, uid1: Text,
                             ns2: Text, name2: Text, uid2: Text)
    requires ResourceID(cluster, group, kind, ns1, name1, uid1) == ResourceID(cluster, group, kind, ns2, name2, uid2)
    ensures Normalize(ns1) == Normalize(ns2) && Normalize(name1) == Normalize(name2) && Normalize(uid1) == Normalize(uid2)
  {
    var a := ResourceRef(cluster, group, NodeKindName(kind), ns1, name1, uid1, "");
    var b := ResourceRef(cluster, group, NodeKindName(kind), ns2, name2, uid2, "");
    SameIDIffSameFields(a, b);
    hide Normalize, NewCanonicalID, NodeKindName;
    var fa, fb := Fields(a), Fields(b);
    assert fa[3] == fb[3] && fa[4] == fb[4] && fa[5] == fb[5];
  }

  /** Identifiers of different kinds never collide, whatever their other fields are. */
  lemma KindsNeverCollide(cluster1: Text, group1: Text, kind1: NodeKind, ns1: Text, name1: Text, uid1: Text,
                          cluster2: Text, group2: Text, kind2: NodeKind, ns2: Text, name2: Text, uid2: Text)
    requires kind1 != kind2
    ensures ResourceID(cluster1, group1, kind1, ns1, name1, uid1) != ResourceID(cluster2, group2, kind2, ns2, name2, uid2)
  {
    if NodeKindName(kind1) == NodeKindName(kind2) {
      NodeKindNameIsInjective(kind1, kind2);
    }
  }

  /** The node's identifier was made for its kind. */
  predicate Coherent(node: Node) {
    KindTag(node.id) == NodeKindName(node.kind)
  }

  type NodeMap = map<CanonicalID, Node>
  type EdgeMap = map<EdgeKey, Edge>

  predicate TouchesKey(k: EdgeKey, id: CanonicalID) {
    k.from == id || k.to == id
  }

  datatype Graph = Graph(nodes: NodeMap, edges: EdgeMap) {
    ghost predicate Valid() {
      && (forall id | id in nodes :: nodes[id].id == id)
      && (forall k | k in edges :: edges[k].Triple() == k)
    }
    function WithNode(node: Node): Graph { this.(nodes := nodes[node.id := node]) }
    function WithEdge(edge: Edge): Graph { this.(edges := edges[edge.Triple() := edge]) }
    function WithoutEdges(doomed: EdgeKey -> bool): Graph {
      this.(edges := map k | k in edges && !doomed(k) :: edges[k])
    }
    /** Deleting a node deletes the edges at it. */
    function WithoutNodes(ids: set<CanonicalID>): Graph {
      Graph(nodes - ids, map k | k in edges && k.from !in ids && k.to !in ids :: edges[k])
    }
    function WithAll(ns: seq<Node>, es: seq<Edge>): Graph {
      Graph(nodes + ToNodes(ns), edges + ToEdges(es))
    }
  }

  const EMPTY_GRAPH := Graph(map[], map[])

  /** Upserting a list in order: the last value under a key wins. */
  function ToEdges(es: seq<Edge>): EdgeMap {
    if es == [] then map[] else ToEdges(es[..|es| - 1])[es[|es| - 1].Triple() := es[|es| - 1]]
  }

  function ToNodes(ns: seq<Node>): NodeMap {
    if ns == [] then map[] else ToNodes(ns[..|ns| - 1])[ns[|ns| - 1].id := ns[|ns| - 1]]
  }

  lemma {:induction false} ToEdgesAppend(a: seq<Edge>, b: seq<Edge>)
    ensures ToEdges(a + b) == ToEdges(a) + ToEdges(b)
  {
    if b == [] {
      assert a + b == a;
    } else {
      var init, last := b[..|b| - 1], b[|b| - 1];
      ToEdgesAppend(a, init);
      assert (a + b)[..|a + b| - 1] == a + init;
    }
  }

  lemma {:induction false} ToNodesAppend(a: seq<Node>, b: seq<Node>)
    ensures ToNodes(a + b) == ToNodes(a) + ToNodes(b)
  {
    if b == [] {
      assert a + b == a;
    } else {
      var init, last := b[..|b| - 1], b[|b| - 1];
      ToNodesAppend(a, init);
      assert (a + b)[..|a + b| - 1] == a + init;
    }
  }

  /** Maps without entries drop out of any sum. */
  lemma EmptyIsNeutral<K(!new), V(!new)>()
    ensures forall m: map<K, V> :: map[] + m == m && m + map[] == m
  {
    assert forall m: map<K, V> :: (map[] + m).Keys == m.Keys && (m + map[]).Keys == m.Keys;
  }

  lemma MapPlusIsAssociative<K, V>(a: map<K, V>, b: map<K, V>, c: map<K, V>)
    ensures (a + b) + c == a + (b + c)
  {
  }

  /** Every listed edge ends up under its key, and nothing else does. */
  lemma {:induction false} ToEdgesMembers(es: seq<Edge>)
    ensures forall k | k in ToEdges(es) :: ToEdges(es)[k] in es && ToEdges(es)[k].Triple() == k
    ensures forall e | e in es :: e.Triple() in ToEdges(es)
  {
    if es != [] {
      ToEdgesMembers(es[..|es| - 1]);
      assert es == es[..|es| - 1] + [es[|es| - 1]];
    }
  }

  lemma {:induction false} ToNodesMembers(ns: seq<Node>)
    ensures forall id | id in ToNodes(ns) :: ToNodes(ns)[id] in ns && ToNodes(ns)[id].id == id
    ensures forall n | n in ns :: n.id in ToNodes(ns)
  {
    if ns != [] {
      ToNodesMembers(ns[..|ns| - 1]);
      assert ns == ns[..|ns| - 1] + [ns[|ns| - 1]];
    }
  }

  /** The part of an edge map whose keys satisfy a predicate. */
  function Only(m: EdgeMap, p: EdgeKey -> bool): EdgeMap {
    map k | k in m && p(k) :: m[k]
  }

  lemma OnlyUnion(a: EdgeMap, b: EdgeMap, p: EdgeKey -> bool)
    ensures Only(a + b, p) == Only(a, p) + Only(b, p)
  {
  }

  lemma OnlyNone(es: seq<Edge>, p: EdgeKey -> bool)
    requires forall e | e in es :: !p(e.Triple())
    ensures Only(ToEdges(es), p) == map[]
  {
    ToEdgesMembers(es);
  }

  lemma OnlyAll(es: seq<Edge>, p: EdgeKey -> bool)
    requires forall e | e in es :: p(e.Triple())
    ensures Only(ToEdges(es), p) == ToEdges(es)
  {
    ToEdgesMembers(es);
  }

  lemma {:induction false} SubsetSize<T>(a: set<T>, b: set<T>)
    requires a <= b
    ensures |a| <= |b|
  {
    if a != {} {
      var x :| x in a;
      SubsetSize(a - {x}, b - {x});
    }
  }

  lemma PrefixStep<A>(xs: seq<A>, i: nat)
    requires i < |xs|
    ensures xs[..i + 1] == xs[..i] + [xs[i]]
  {
  }

  lemma PrefixEnds<A>(xs: seq<A>)
    ensures xs[..|xs|] == xs && xs[..0] == []
  {
  }

  /** Concatenation of what each element contributes, in order. */
  function Flat<A, B>(xs: seq<A>, f: A -> seq<B>): seq<B> {
    if xs == [] then [] else Flat(xs[..|xs| - 1], f) + f(xs[|xs| - 1])
  }

  lemma FlatStep<A, B>(xs: seq<A>, i: nat, f: A -> seq<B>)
    requires i < |xs|
    ensures Flat(xs[..i + 1], f) == Flat(xs[..i], f) + f(xs[i])
  {
    assert xs[..i + 1][..i] == xs[..i];
  }

  lemma {:induction false} FlatMembers<A, B>(xs: seq<A>, f: A -> seq<B>)
    ensures forall b :: b in Flat(xs, f) <==> exists x | x in xs :: b in f(x)
  {
    if xs != [] {
      FlatMembers(xs[..|xs| - 1], f);
      assert xs == xs[..|xs| - 1] + [xs[|xs| - 1]];
    }
  }

  lemma {:induction false} SameFlat<A, B>(xs: seq<A>, f: A -> seq<B>, h: A -> seq<B>)
    requires forall x | x in xs :: f(x) == h(x)
    ensures Flat(xs, f) == Flat(xs, h)
  {
    if xs != [] {
      SameFlat(xs[..|xs| - 1], f, h);
    }
  }

  /** The loop that appends what each element contributes. */
  method Append<A, B>(acc: seq<B>, xs: seq<A>, f: A -> seq<B>) returns (out: seq<B>)
    ensures out == acc + Flat(xs, f)
    ensures acc == [] ==> out == Flat(xs, f)
  {
    out := acc;
    for i := 0 to |xs|
      invariant out == acc + Flat(xs[..i], f)
    {
      FlatStep(xs, i, f);
      out := out + f(xs[i]);
    }
    PrefixEnds(xs);
  }

  /** Restriction commutes with the pass over a list. */
  lemma {:induction false} OnlyFlat<A>(xs: seq<A>, f: A -> seq<Edge>, p: EdgeKey -> bool, h: A -> seq<Edge>)
    requires forall x | x in xs :: Only(ToEdges(f(x)), p) == ToEdges(h(x))
    ensures Only(ToEdges(Flat(xs, f)), p) == ToEdges(Flat(xs, h))
  {
    if xs != [] {
      var init, last := xs[..|xs| - 1], xs[|xs| - 1];
      OnlyFlat(init, f, p, h);
      ToEdgesAppend(Flat(init, f), f(last));
      ToEdgesAppend(Flat(init, h), h(last));
      OnlyUnion(ToEdges(Flat(init, f)), ToEdges(f(last)), p);
    }
  }
}
