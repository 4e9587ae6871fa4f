/** Resolution of owner references through chains of workloads and replica sets, cycles included. */
module OwnerChain {
  import opened Identity
  import opened Sorting
  import opened Resources

  datatype WorkloadTarget = WorkloadTarget(
    id: CanonicalID, apiVersion: string, kind: string, namespace: string, name: string, uid: string)

  datatype OwnerObject = OwnerObject(
    target: WorkloadTarget, apiVersion: string, kind: string, namespace: string, name: string, uid: string,
    ownerReferences: seq<OwnerReference>, workload: bool)

  datatype Lookup = Found(obj: OwnerObject) | Missing

  function RefKey(namespace: string, kind: string, name: string): string { namespace + "/" + kind + "/" + name }
  function VersionRefKey(namespace: string, apiVersion: string, kind: string, name: string): string {
    namespace + "/" + apiVersion + "/" + kind + "/" + name
  }
  function UIDKey(namespace: string, kind: string, uid: string): string { namespace + "/" + kind + "/" + uid }

  /** The key under which the walk remembers an object. */
  function SeenKey(obj: OwnerObject): string {
    if obj.uid != "" then UIDKey(obj.namespace, obj.kind, obj.uid) else RefKey(obj.namespace, obj.kind, obj.name)
  }

  /** The controllers among the references, or all references when none is marked as controller. */
  function ControllingReferences(refs: seq<OwnerReference>): seq<OwnerReference> {
    var controllers := Controllers(refs);
    if |controllers| > 0 then controllers else refs
  }

  function Controllers(refs: seq<OwnerReference>): seq<OwnerReference> {
    if refs == [] then []
    else if refs[0].controller then [refs[0]] + Controllers(refs[1..])
    else Controllers(refs[1..])
  }

  datatype Resolver = Resolver(byUID: map<string, OwnerObject>, byRef: map<string, OwnerObject>) {
    function Add(obj: OwnerObject): Resolver {
      var byRef1 := byRef[RefKey(obj.namespace, obj.kind, obj.name) := obj];
      var byRef2 := if obj.apiVersion == "" then byRef1
                    else byRef1[VersionRefKey(obj.namespace, obj.apiVersion, obj.kind, obj.name) := obj];
      Resolver(if obj.uid == "" then byUID else byUID[UIDKey(obj.namespace, obj.kind, obj.uid) := obj], byRef2)
    }

    function Objects(): set<OwnerObject> { byUID.Values + byRef.Values }

    function Keys(): set<string> { set obj | obj in Objects() :: SeenKey(obj) }

    function Find(namespace: string, ref: OwnerReference): (found: Lookup)
      ensures found.Found? ==> found.obj in Objects()
    {
      if ref.uid != "" && UIDKey(namespace, ref.kind, ref.uid) in byUID then
        Found(byUID[UIDKey(namespace, ref.kind, ref.uid)])
      else if ref.apiVersion != "" && VersionRefKey(namespace, ref.apiVersion, ref.kind, ref.name) in byRef then
        Found(byRef[VersionRefKey(namespace, ref.apiVersion, ref.kind, ref.name)])
      else if RefKey(namespace, ref.kind, ref.name) in byRef then
        Found(byRef[RefKey(namespace, ref.kind, ref.name)])
      else Missing
    }
  }

  function AddAll(r: Resolver, objs: seq<OwnerObject>): Resolver {
    if objs == [] then r else AddAll(r, objs[..|objs| - 1]).Add(objs[|objs| - 1])
  }

  function WorkloadObject(cluster: Text, w: KubeWorkload): OwnerObject {
    OwnerObject(
      WorkloadTarget(WorkloadID(cluster, w), w.apiVersion, w.controllerKind, w.meta.namespace, w.meta.name, w.meta.uid),
      w.apiVersion, w.controllerKind, w.meta.namespace, w.meta.name, w.meta.uid, w.ownerReferences, true)
  }

  function ReplicaSetObject(rs: KubeReplicaSet): OwnerObject {
    OwnerObject(WorkloadTarget("", "", "", "", "", ""), "", "ReplicaSet", rs.meta.namespace, rs.meta.name, rs.meta.uid,
                rs.ownerReferences, false)
  }

  function OwnerObjects(cluster: Text, workloads: seq<KubeWorkload>, replicaSets: seq<KubeReplicaSet>): seq<OwnerObject> {
    seq(|workloads|, i requires 0 <= i < |workloads| => WorkloadObject(cluster, workloads[i]))
    + seq(|replicaSets|, i requires 0 <= i < |replicaSets| => ReplicaSetObject(replicaSets[i]))
  }

  /** Workloads first, then replica sets; later objects replace earlier ones under the same key. */
  function NewChainResolver(cluster: Text, workloads: seq<KubeWorkload>, replicaSets: seq<KubeReplicaSet>): Resolver {
    AddAll(Resolver(map[], map[]), OwnerObjects(cluster, workloads, replicaSets))
  }

  /** The walk from one object: the workloads found, in order, and the keys seen by then. */
  function ResolveObject(r: Resolver, obj: OwnerObject, seen: set<string>): (res: (seq<WorkloadTarget>, set<string>))
    requires obj in r.Objects()
    ensures seen <= res.1
    decreases r.Keys() - seen, 0
  {
    if SeenKey(obj) in seen then ([], seen)
    else
      assert SeenKey(obj) in r.Keys() - seen;
      var (targets, seen') := ResolveAll(r, obj.namespace, ControllingReferences(obj.ownerReferences), seen + {SeenKey(obj)});
      ((if obj.workload then [obj.target] else []) + targets, seen')
  }

  function ResolveAll(r: Resolver, namespace: string, refs: seq<OwnerReference>, seen: set<string>)
    : (res: (seq<WorkloadTarget>, set<string>))
    ensures seen <= res.1
    decreases r.Keys() - seen, |refs|
  {
    if refs == [] then ([], seen)
    else
      var (first, seen1) := match r.Find(namespace, refs[0])
                            case Missing => ([], seen)
                            case Found(obj) => ResolveObject(r, obj, seen);
      assert r.Keys() - seen1 <= r.Keys() - seen;
      var (rest, seen2) := ResolveAll(r, namespace, refs[1..], seen1);
      (first + rest, seen2)
  }

  /** The first target with each identifier, over all references, each walked afresh. */
  function Gather(r: Resolver, namespace: string, refs: seq<OwnerReference>, acc: seq<WorkloadTarget>): seq<WorkloadTarget> {
    if refs == [] then acc
    else match r.Find(namespace, refs[0])
         case Missing => Gather(r, namespace, refs[1..], acc)
         case Found(obj) => Gather(r, namespace, refs[1..], AppendNew(acc, ResolveObject(r, obj, {}).0))
  }

  function AppendNew(acc: seq<WorkloadTarget>, targets: seq<WorkloadTarget>): seq<WorkloadTarget>
    decreases targets
  {
    if targets == [] then acc
    else if exists t | t in acc :: t.id == targets[0].id then AppendNew(acc, targets[1..])
    else AppendNew(acc + [targets[0]], targets[1..])
  }

  function TargetKey(): WorkloadTarget -> seq<string> {
    (t: WorkloadTarget) => [t.namespace, t.kind, t.name, t.uid]
  }

  function ResolveReferences(r: Resolver, namespace: string, refs: seq<OwnerReference>): seq<WorkloadTarget> {
    SortBy(Gather(r, namespace, ControllingReferences(refs), []), TargetKey())
  }

  // ---- The walk as the source runs it: a recursive method updating one shared set. ----

  method ResolveObjectWalk(r: Resolver, obj: OwnerObject, seen: set<string>)
    returns (targets: seq<WorkloadTarget>, seen': set<string>)
    requires obj in r.Objects()
    ensures (targets, seen') == ResolveObject(r, obj, seen)
    decreases r.Keys() - seen
  {
    hide ControllingReferences, Resolver.Find, Resolver.Objects;
    var key := SeenKey(obj);
    if key in seen {
      return [], seen;
    }
    seen' := seen + {key};
    assert key in r.Keys() - seen;
    targets := if obj.workload then [obj.target] else [];
    ghost var head := targets;
    var refs := ControllingReferences(obj.ownerReferences);
    ghost var whole := ResolveAll(r, obj.namespace, refs, seen');
    for i := 0 to |refs|
      invariant seen + {key} <= seen'
      invariant targets + ResolveAll(r, obj.namespace, refs[i..], seen').0 == head + whole.0
      invariant ResolveAll(r, obj.namespace, refs[i..], seen').1 == whole.1
    {
      assert refs[i..][1..] == refs[i + 1..];
      var found := r.Find(obj.namespace, refs[i]);
      if found.Found? {
        assert r.Keys() - seen' < r.Keys() - seen by {
          assert key !in r.Keys() - seen';
        }
        var more, seen1 := ResolveObjectWalk(r, found.obj, seen');
        targets, seen' := targets + more, seen1;
      }
    }
    assert refs[|refs|..] == [] && targets + [] == targets;
  }

  function IDsOf(targets: seq<WorkloadTarget>): set<CanonicalID> {
    set t | t in targets :: t.id
  }

  /** The loop that keeps the first target with each identifier. */
  method AppendUnseen(acc: seq<WorkloadTarget>, seen: set<CanonicalID>, more: seq<WorkloadTarget>)
    returns (targets: seq<WorkloadTarget>, seen': set<CanonicalID>)
    requires seen == IDsOf(acc)
    ensures targets == AppendNew(acc, more) && seen' == IDsOf(targets)
  {
    targets, seen' := acc, seen;
    for j := 0 to |more|
      invariant seen' == IDsOf(targets)
      invariant AppendNew(targets, more[j..]) == AppendNew(acc, more)
    {
      assert more[j..][1..] == more[j + 1..];
      if more[j].id !in seen' {
        seen' := seen' + {more[j].id};
        targets := targets + [more[j]];
      }
    }
  }

  method ResolveOwnerReferences(r: Resolver, namespace: string, refs: seq<OwnerReference>) returns (targets: seq<WorkloadTarget>)
    ensures targets == ResolveReferences(r, namespace, refs)
  {
    hide AppendNew, ResolveObject, IDsOf, SortBy;
    targets := [];
    var seenTargets: set<CanonicalID> := {};
    var controlling := ControllingReferences(refs);
    assert seenTargets == IDsOf([]) by { NoIDs(); }
    for i := 0 to |controlling|
      invariant seenTargets == IDsOf(targets)
      invariant Gather(r, namespace, controlling[i..], targets) == Gather(r, namespace, controlling, [])
    {
      assert controlling[i..][1..] == controlling[i + 1..];
      var found := r.Find(namespace, controlling[i]);
      if found.Found? {
        var resolved, _ := ResolveObjectWalk(r, found.obj, {});
        targets, seenTargets := AppendUnseen(targets, seenTargets, resolved);
      }
    }
    targets := SortBy(targets, TargetKey());
  }

  lemma NoIDs()
    ensures IDsOf([]) == {}
  {
  }
}
