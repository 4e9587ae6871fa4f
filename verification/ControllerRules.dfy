/** Replacing the edges that workload-controller rules infer. The inference itself is a parameter. */
module ControllerRules {
  import opened GraphModel
  import opened Kernel
  import opened KernelLoops

  predicate IsControllerRuleEdge(kind: EdgeKind) {
    kind == ManagedByController || kind == ServedByNodeDaemon
  }

  function ControllerKey(): EdgeKey -> bool { (k: EdgeKey) => IsControllerRuleEdge(k.kind) }

  ghost function Reconciled(g: Graph, inferred: seq<Edge>): Graph {
    g.WithoutEdges(ControllerKey()).WithAll([], inferred)
  }

  method Apply(kernel: Kernel, inferred: seq<Edge>) returns (upserted: nat, deleted: nat)
    requires kernel.Valid()
    modifies kernel.store
    ensures kernel.Valid() && kernel.View() == Reconciled(old(kernel.View()), inferred) && upserted == |inferred|
    ensures deleted == |old(kernel.View()).edges| - |old(kernel.View()).WithoutEdges(ControllerKey()).edges|
  {
    hide Kernel.Valid, Kernel.View, Graph.WithoutEdges, Graph.WithAll, ToEdges;
    deleted := DeleteEdgesWhere(kernel, ControllerKey());
    ghost var cleared := kernel.View();
    UpsertEdgeList(kernel, inferred);
    upserted := |inferred|;
    NoMoreNodes(cleared, inferred);
  }
}
