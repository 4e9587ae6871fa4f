# The in-memory ontology graph, verified

A Dafny model of the graph engine that turns a Kubernetes snapshot into a
graph of nodes and edges, keeps that graph current as objects change, and
answers bounded queries over it. Nothing here needs the original program: the
statements are about the model, whose branches follow the cited lines.

## What is modelled

- **Identity and keys** (`Strings`, `Identity`, `GraphModel`). Canonical
  identifiers, edge keys, and the graph as a value: two finite maps.
- **Kernel** (`Kernel`, `KernelLoops`). The store with its three maps, the
  adjacency index, and the kernel over both, as classes updated in place.
- **Snapshot to graph** (`Resources`, `OwnerChain`, `OwnerReach`, `OwnerLookup`,
  `OwnerLoss`, `Csi`, `Builder`, `RebuildSections`). The owner-chain resolver with
  its shared `seen` set, what its lookups find and exactly when it misses an
  owner, CSI component inference, and the full builder pass by pass.
- **Scoped reconcilers** (`StorageReconciler`, `IdentityReconciler`,
  `PodReconciler`, `WorkloadReconciler`, `ServiceReconciler`,
  `EventReconciler`, `ControllerRules`). Each runs in place on a kernel and is
  proved to take the kernel's graph to a stated graph; `StorageRefinement`,
  `PodRefinement`, `WorkloadRefinement` and the second halves of the other
  modules compare that graph with a full rebuild, from an arbitrary graph.
- **Meaning** (`SnapshotLinks`, `LinkPasses`, `PodLinks`, `IdentityLinks`,
  `StorageLinks`, `EventLinks`, `WorkloadLinks`, `GraphMeaning`, `NodeMeaning`).
  `SnapshotLinks` says in the objects' own fields when each kind of link is due;
  the others prove that a full rebuild, and every narrow update from any graph,
  stores exactly these, and which nodes stand for what.
- **Runs** (`EdgeTyping`, `Runs`). A bootstrap and any sequence of narrow
  updates, with the invariants that every such run keeps.
- **Queries** (`Diagnostic`, `DiagnosticMeaning`, `DiagnosticService`, `Expand`,
  `ExpandMeaning`). `Diagnostic` defines the answer by admissible walks, without
  loops, order or budgets; `DiagnosticMeaning` says at each kind of node where a
  walk may go and what must be shown, without the admission test;
  `DiagnosticService` runs the layered search and is proved to compute the answer.
- **Client state and change detection** (`GraphState`, `Fingerprints`,
  `SnapshotOrder`, `Polling`, `PollingMeaning`). Collapsing an expansion, and the
  polling stream.
- **What the stream can see** (`Splitting`, `MapReading`, `FingerprintReading`,
  `ObjectReading`, `WatchedPieces`, `WatchedView`, `WatchedReading`,
  `WatchedWorkloads`, `WatchedTheorem`). The part of a snapshot that decides its
  fingerprints, and reading that part back out of them.
- **Runtime** (`Manager`, `Served`). Start, narrow apply with fall-back to a rebuild, and
  the counters, over the same kernel; its ghost field `steps` is the run that
  led to the graph being served. `Served` says what that graph shows after an
  event of each kind.

Where Go iterates over a map, the model picks an arbitrary order: a method's
contract holds for every order, and where the result depends on one it is
returned as a ghost value (`order` for CSI drivers, `evidence` for the webhook
that a blocked workload is linked to).

## Conditions

`Build` looks names up in maps where the last object listed wins, and the
reconcilers use the object itself; joining identifiers from parts replaces
`/`. The agreement theorems are therefore stated under conditions on the
snapshot that Kubernetes gives, and no others:

| condition | says |
|---|---|
| `PodNamesIdentify`, `BindingNamesIdentify`, `StorageNamesIdentify`, `WorkloadNamesIdentify`, `UniquePods`, `UniqueServices` | objects of a kind listed under one namespace and name share one identifier, and the names hold no `/` |
| `UIDsIdentify` | objects events may be about are of one identifier for a kind and UID, and kinds hold no `/` |
| `PlainOwners`, `PlainReferences` | namespaces, kinds and names of owners and references hold no `/` |
| `DistinctPods`, `DistinctServices` | a namespace and name, or an identifier, names one listed object |
| `SeparateDrivers` | no two CSI driver names differ only in `/` against `_` |
| `ToldApart` | no walk along owners meets two objects under one key |
| `ConfusedHide` | each of two objects that a walk may confuse is the only way to some workload |
| `TargetsIdentify`, `DistinctOwners` | no two workloads or replica sets share a UID, a name or an identifier |
| `Readable` | what the stream watches is free of the separators that would hide where it ends; slashes are fine in API versions, label keys, provisioners, CSI attributes, event messages, and images none of whose path segments ends in `true` or `false` |
| `InferredShape`, `InfersWell` | Helm and controller inference, which are inputs here, yield only their own kinds of nodes and edges and leave images alone |

They follow from what a cluster guarantees: `PlainNames.PlainOwnersAreDistinct`
from non-empty unique UIDs, one object per namespace, kind and name, and fields
free of `/`; `PodRefinement.PlainPodsAreDistinct`,
`PlainNames.PlainServicesAreDistinct` and `PlainNames.NamesListedOnceIdentify`
from names listed once, `PlainNames.UniqueUIDsIdentify` from UIDs listed once;
`StorageRefinement.PlainDriversAreSeparate` from names free of `/`.

## Where the code falls short of a plain statement

- Without UIDs an owner can hide behind another object's key, and the resolver
  then misses it: `OwnerLoss.MissingUIDsCanHideAnOwner` gives two listed workloads.
  `OwnerLoss.CompleteExactlyWhenToldApart` says on which lists nothing is missed,
  and `OwnerLoss.FirstSeenHides` what the order of references decides.
- A service recreated under a new UID leaves its former node and that node's
  edges behind after a narrow update, where a rebuild stores neither:
  `ServiceReconciler.RecreatedServiceKeepsFormer`.
  `ServiceReconciler.AloneExactlyWhenNoFormer` says exactly when that happens.
- Fields that differ only in `/` against `_` get one identifier:
  `Identity.SlashesCollide`, and `Identity.SameIDIffSameFields` for all inputs.
- Endpoints containing `|` can make edge keys ambiguous:
  `GraphModel.SeparatorsInEndpointsCollide`, and
  `GraphModel.SharesKeyExactlyWhenCutElsewhere` for all inputs.
- The polling stream notices a change exactly when its watched view changes by
  more than order (`WatchedTheorem.InputsAgreeExactlyWhenViewsDo`,
  `Polling.QuietExactlyWhenViewsAgree`). The view (`WatchedView.Watched`) holds no
  nodes, config maps, secrets or webhook configurations; no labels of claims,
  volumes, storage classes, CSI drivers, events, service accounts or bindings; no
  namespace of cluster-wide kinds; and not the UID of the object an event is
  about, by which the builder links it (`WatchedView.InvolvedUIDGoesUnnoticed`).

## Model

| member | source | states |
|---|---|---|
| Identity.SameIDIffSameFields | internal/model/identity.go:20-42 | two references get one identifier if and only if all seven normalised fields agree |
| Identity.PlainIDsAreInjective | internal/model/identity.go:20-42 | on fields free of `/` and other than the placeholder for an empty field, the identifier determines the reference |
| Identity.SlashesCollide | internal/model/identity.go:33-42 | two different references, one with `/` and one with `_`, that share an identifier |
| Identity.KindTagOfID | internal/model/identity.go:20-31 | the kind can be read back out of an identifier, whatever its other fields are |
| GraphModel.KindsNeverCollide | internal/model/identity.go:20-42 | identifiers of objects of different kinds differ, whatever cluster, group, namespace, name and UID are |
| GraphModel.KeyStringIsInjective | internal/model/edge.go:74-76 | edges with equal keys have the same endpoints and kind |
| GraphModel.SeparatorsInEndpointsCollide | internal/model/edge.go:74-76 | on raw strings two different edges share a key, so the previous row needs endpoints free of the separator |
| GraphModel.SharesKeyExactlyWhenCutElsewhere | internal/model/edge.go:74-76 | on raw strings an edge shares its key with a different edge if and only if some kind's name stands between separators within `from` and the bar after it, or within the bar before `to` and `to` |
| Kernel.Store.AddNeighbor | internal/store/memory/store.go:118-123 | one key joins one identifier's entry, nothing else changes |
| Kernel.Store.RemoveNeighbor | internal/store/memory/store.go:125-133 | one key leaves one identifier's entry; an empty entry disappears |
| Kernel.Store.UpsertEdge | internal/store/memory/store.go:39-47 | the whole new edge map and adjacency, indexed at both endpoints |
| Kernel.Store.DeleteEdge | internal/store/memory/store.go:49-59 | the edge and both its index entries go; an unknown key changes nothing |
| Kernel.StoreAfterUpsert | internal/graph/kernel.go:32-39 | after an upsert every edge is stored under its own key and a key is indexed at an identifier exactly when its edge touches it; the kernel's repeated index calls are idle |
| Kernel.StoreAfterDelete | internal/graph/kernel.go:41-50 | the same index equivalence after deleting any key, stored or not |
| Kernel.NothingTouches | internal/graph/kernel.go:21-30 | once no stored edge touches an identifier, its index entry is gone too |
| Kernel.IndexIsAScan | internal/graph/kernel.go:64-73 | looking up an identifier's indexed keys lists exactly the stored edges that touch it, each once |
| Kernel.Kernel.UpsertNode | internal/graph/kernel.go:17-19 | the graph gains or replaces that node and nothing else |
| Kernel.Kernel.UpsertEdge | internal/graph/kernel.go:32-39 | the graph gains or replaces that edge and nothing else, and the index stays exact |
| Kernel.Kernel.DeleteNode | internal/graph/kernel.go:21-30 | the node and every edge touching it go, all else stays, and no stored edge touches it afterwards |
| Kernel.Kernel.DeleteEdge | internal/graph/kernel.go:41-50 | exactly the edge under that key goes |
| Kernel.Kernel.Neighbors | internal/graph/kernel.go:64-73 | lists exactly the edges a full scan filtered on the identifier finds, each once, in any order |
| KernelLoops.DeleteEdgesWhere | internal/reconcile/storage.go:109-119 | a delete loop over listed edges removes exactly those satisfying its condition and counts them |
| KernelLoops.DeleteNodesWhere | internal/reconcile/storage.go:121-148 | a delete loop over listed nodes removes exactly those, with all edges touching them, and counts the nodes |
| OwnerChain.ResolveObjectWalk | internal/resolve/owner/chain.go:145-163 | the recursive walk with its shared `seen` set ends on every owner graph, cycles included, and returns the specified targets and set |
| OwnerChain.ResolveOwnerReferences | internal/resolve/owner/chain.go:81-109 | the outer loop with its duplicate map and final sort computes the specified resolution |
| OwnerReach.ControllingReferencesAreThose | internal/resolve/owner/chain.go:180-191 | the references that are followed are exactly the controllers of the list, or all when none is marked as controller |
| OwnerLookup.FindsWhatIsNamed | internal/resolve/owner/chain.go:127-178 | over listed objects a lookup finds the last one of the namespace with the kind and UID of the reference, else with its version, kind and name, else with its kind and name |
| OwnerLookup.ObjectsStandForTheListed | internal/resolve/owner/chain.go:42-70 | the objects walked are the listed workloads and then the replica sets, each with its own fields and references |
| OwnerLookup.OwnersAreChainEnds | internal/resolve/owner/chain.go:137-178 | the workloads a list of references leads to are those at the ends of chains of controlling references, each naming a listed object |
| OwnerReach.FreshWalkFindsReachable | internal/resolve/owner/chain.go:137-191 | a walk with nothing seen lists exactly the workloads reachable by any number of controlling references |
| OwnerReach.ResolvesExactlyOwners | internal/resolve/owner/chain.go:81-109 | a resolution lists each workload reachable through controlling references exactly once and no other, ordered by namespace, kind, name and UID |
| OwnerReach.ResolutionForgetsOrder | internal/resolve/owner/chain.go:81-109 | reordering the references, at the start or anywhere along the chains, leaves the answer equal |
| OwnerReach.DistinctKeysIdentify | internal/resolve/owner/chain.go:37-79 | if the listed objects have different keys under which the walk remembers them, so have the objects the resolver stores |
| OwnerLoss.ToldApartResolvesCompletely | internal/resolve/owner/chain.go:81-109 | on any resolver whose walks never meet two objects under one key, every list of references is resolved to all workloads it leads to |
| OwnerLoss.OneOfTwoIsLost | internal/resolve/owner/chain.go:145-163 | of two workloads with one key that a reference leads to, at most one is reported |
| OwnerLoss.OneOfTwoWaysIsLost | internal/resolve/owner/chain.go:145-163 | of two workloads that hide behind two objects with one key, replica sets or workloads, at most one is reported, in whatever order the references stand |
| OwnerLoss.FirstSeenHides | internal/resolve/owner/chain.go:145-163 | when an object's first controlling reference leads to one of two objects with one key, a workload that it reaches through the other alone is not reported |
| OwnerLoss.CompleteTellsHidersApart | internal/resolve/owner/chain.go:37-163 | on any listed objects: if resolution misses no owner, then of two different objects with one key, one is not the only way from the same start to any workload |
| OwnerLoss.CompleteExactlyWhenToldApart | internal/resolve/owner/chain.go:37-163 | on any lists where each of two objects that a walk may confuse is the only way to some workload, resolution misses no owner, whatever references it is asked about, if and only if no walk can meet two objects under one key |
| OwnerLoss.OwnNamesHide | internal/resolve/owner/chain.go:37-79 | lists whose workloads have identifiers of their own and whose replica sets have keys of their own are of that kind |
| OwnerLoss.ConfusedWithoutLoss | internal/resolve/owner/chain.go:127-163 | two listed replica sets that a walk takes for one, yet no owner is missed: completeness alone does not tell objects apart |
| OwnerLoss.MissingUIDsCanHideAnOwner | internal/resolve/owner/chain.go:137-163 | two listed workloads, one without a UID and named like the other's UID: a reference leads to both and one of them is missed |
| PlainNames.PlainOwnersAreDistinct | internal/resolve/owner/chain.go:37-79 | non-empty unique UIDs, one object per namespace, kind and name, and fields free of `/` keep owners distinct, their keys different, walks unconfused and targets identified |
| PlainNames.PlainServicesAreDistinct | internal/reconcile/service.go:101-112 | services listed once per name, with fields free of `/`, have distinct name-map keys and identifiers |
| PlainNames.NamesListedOnceIdentify | internal/graph/builder.go:45-168 | names listed once per kind and free of `/` identify their objects in every name map |
| PlainNames.UniqueUIDsIdentify | internal/graph/builder.go:60-154 | UIDs listed once per kind, with no workload of a kind listed on its own, identify what events are about |
| WorkloadRefinement.TargetsAreWorkloads | internal/resolve/owner/chain.go:81-109 | every owner a resolution returns is a workload of the snapshot |
| Csi.CorrelatePV | internal/resolve/infer/csi.go:110-137 | the loop over node names with its seen-map yields the first edge under each key over the sorted names |
| Csi.ServedExactlyByAgentsOnItsNodes | internal/resolve/infer/csi.go:110-226 | a volume is linked to a node agent if and only if that pod matches the rule as an agent, not as a controller, and runs on one of the volume's trimmed node names |
| Csi.NormalizedMembers | internal/resolve/infer/csi.go:250-265 | the normalised names are exactly the non-empty trimmed names |
| Builder.Build | internal/graph/builder.go:43-378 | the full pass, with its driver map growing as it goes and the other name maps taken from whole lists, yields the stated nodes and edges section by section, for every map order |
| Builder.StorageClassPass | internal/graph/builder.go:300-314 | synthetic drivers are added once per unobserved CSI provisioner, and every class is linked to the driver its own turn of the loop sees |
| Builder.EvidencePass | internal/graph/builder.go:365-375 | each blocked workload is linked to one webhook, whichever the map yields |
| StorageReconciler.Apply | internal/reconcile/storage.go:48-107 | in place on any kernel: the exact new graph, and the exact counts of deleted edges and nodes and upserted edges |
| StorageRefinement.StorageUpdateMatchesRebuild | internal/reconcile/storage.go:48-278 | from any graph, the PVC, PV, StorageClass and CSIDriver nodes and the eight storage edge kinds end up equal to a full rebuild's, synthetic drivers and component edges included, for any two driver orders |
| StorageRefinement.OtherEdgesSurvive | internal/reconcile/storage.go:109-148 | an edge of any other kind survives, unchanged, if and only if it touches no stale storage node |
| StorageRefinement.DriverOrderIsIrrelevant | internal/reconcile/storage.go:225-262 | the component edges are the same whatever order the drivers come in |
| StorageRefinement.PlainDriversAreSeparate | internal/reconcile/storage.go:304-322 | driver names free of `/` are never merged |
| IdentityReconciler.Apply | internal/reconcile/identity_security.go:34-71 | in place on any kernel: the exact new graph and counts |
| IdentityReconciler.IdentityUpdateMatchesRebuild | internal/reconcile/identity_security.go:34-182 | from any graph, the service accounts, role bindings and cluster role bindings and their two edge kinds end up equal to a full rebuild's, subject namespaces defaulted alike |
| IdentityReconciler.OtherEdgesSurvive | internal/reconcile/identity_security.go:73-109 | an edge of any other kind survives, unchanged, if and only if it touches no stale account or binding |
| PodReconciler.Apply | internal/reconcile/pod.go:33-62 | in place on any kernel: the exact new graph, when it fails, what counts as deleted, and exact counts of edges and of pruned images |
| PodReconciler.DeletePods | internal/reconcile/pod.go:64-88 | every pod of the name but the kept one goes with its edges; every identifier reported was used by one of them, and every one so used is reported unless it is itself a stale pod |
| PodReconciler.PruneImages | internal/reconcile/pod.go:191-205 | of the listed images exactly those no stored edge points to are removed |
| PodRefinement.PodUpdateMatchesRebuild | internal/reconcile/pod.go:33-182 | from any graph, the pod's node and all nine pod-scoped edge kinds end up equal to a full rebuild's |
| PodRefinement.NoOtherPodKeepsTheName | internal/reconcile/pod.go:64-88 | afterwards no pod node but the kept one carries that namespace and name |
| PodRefinement.OtherEdgesSurvive | internal/reconcile/pod.go:64-104 | an edge outside the pod's scope survives, unchanged, if and only if it touches no stale pod of the name |
| PodRefinement.PlainPodsAreDistinct | internal/reconcile/pod.go:227-238 | pods listed once per name, with fields free of `/`, have distinct identifiers |
| WorkloadReconciler.KeptAreTheNamed | internal/reconcile/workload.go:212-248 | the identifiers an update keeps are exactly those of the listed workloads of the name, and none on a deletion |
| WorkloadReconciler.Apply | internal/reconcile/workload.go:32-67 | in place on any kernel: the exact new graph for the webhooks picked, when it fails, and exact counts of upserted edges and of deleted edges and nodes |
| WorkloadReconciler.UpsertEvidence | internal/reconcile/workload.go:126-146 | each blocked workload is linked to one stored webhook, whichever the map yields |
| WorkloadReconciler.ScopeIsTheUnion | internal/reconcile/workload.go:189-200 | deleting the scope of each identifier in turn deletes exactly the edges in some identifier's scope |
| WorkloadRefinement.WorkloadUpdateMatchesRebuild | internal/reconcile/workload.go:32-108 | from any graph, the managed_by, owns_pod and controlled_by edges touching the workload's current identifiers end up equal to a full rebuild's |
| WorkloadRefinement.OtherEdgesSurvive | internal/reconcile/workload.go:160-200 | an edge of a kind the update does not write survives, unchanged, if and only if it touches no stale workload of the name |
| WorkloadRefinement.OutOfScopeEdgesSurvive | internal/reconcile/workload.go:79-200 | an edge outside the kept workloads' scope, of any kind, survives unchanged if and only if it touches no stale workload, but for other ownership edges of the pods they own, which are written again |
| ServiceReconciler.Apply | internal/reconcile/service.go:29-73 | in place on any kernel: the exact new graph, when it fails, and, for an update, exact counts |
| ServiceReconciler.ServiceUpdateMatchesRebuild | internal/reconcile/service.go:29-99 | from any graph, the service's selections end up equal to a full rebuild's |
| ServiceReconciler.RecreatedServiceKeepsFormer | internal/reconcile/service.go:29-73 | an update under a new identifier leaves the former service's node in place and every edge into or out of it but the service's own selections, while a rebuild stores the former identifier only if a listed service has it |
| ServiceReconciler.RebuildStoresListedServices | internal/graph/builder.go:43-378 | a full rebuild stores a service's identifier if and only if a listed service has it |
| ServiceReconciler.OtherEdgesSurvive | internal/reconcile/service.go:29-99 | an update changes only the service's own selections; a deletion takes exactly the edges touching services of the name |
| ServiceReconciler.AloneExactlyWhenNoFormer | internal/reconcile/service.go:29-73 | after an update the service is the only node of its name if and only if no other identifier carried the name before |
| EventReconciler.Apply | internal/reconcile/event.go:31-87 | in place on any kernel: the exact new graph for the webhooks picked, when it fails, and exact counts |
| EventReconciler.EventUpdateMatchesRebuild | internal/reconcile/event.go:108-145 | from any graph, the same workloads are blocked as after a full rebuild, and equal picks give equal evidence |
| EventReconciler.EvidenceBlocksTheSame | internal/reconcile/event.go:120-145 | two passes over a snapshot block the same workloads, whichever webhooks they pick |
| ControllerRules.Apply | internal/reconcile/workload_controller.go:22-46 | in place on any kernel: controller-rule edges are replaced by the inferred ones, all else stays, and both counts are exact |
| GraphMeaning.ManagedExactlyByOwners | internal/graph/builder.go:190-221 | in a full rebuild managed_by(p, w), and owns_pod(w, p), is stored if and only if a pod with identifier p reaches w through controlling references |
| GraphMeaning.ControlledExactlyByOwners | internal/graph/builder.go:261-269 | in a full rebuild controlled_by(a, b) is stored if and only if a differs from b and a workload with identifier a reaches b through controlling references |
| GraphMeaning.UpdateLinksExactlyTheOwners | internal/reconcile/workload.go:32-108 | from any graph, after an update of a workload name, managed_by, owns_pod and controlled_by at a listed workload of that name are stored exactly where controlling references lead |
| GraphMeaning.PodUpdateLinksExactlyTheOwners | internal/reconcile/pod.go:160-189 | from any graph, after a pod update, the pod is managed and owned by exactly the workloads it reaches through controlling references |
| GraphMeaning.OwnersAreChains | internal/resolve/owner/chain.go:74-116 | on plain names these owners are the ends of chains of references from the pod or workload itself, with no resolver left in the statement |
| GraphMeaning.UpdateSelectsExactlyTheMatching | internal/reconcile/service.go:29-73 | from any graph, after a service update, it selects exactly the pods of its namespace that carry every label its selector asks for, a missing label reading as empty, and none for an empty selector |
| PodLinks.RebuildShowsPodLinks | internal/graph/builder.go:190-217 | in a full rebuild scheduled_on, uses_configmap, uses_secret, mounts_pvc, uses_service_account, uses_image and selects_pod are stored exactly where a pod names the node, object of its namespace or image, or a service asks for its labels |
| PodLinks.UpdateShowsPodLinks | internal/reconcile/pod.go:106-182 | from any graph, the same holds of the updated pod after a pod update |
| PodLinks.ServicePassSays | internal/graph/builder.go:353-363 | the pass over the services links each service to exactly the pods of its namespace its selector asks for |
| IdentityLinks.RebuildBindsTheSubjects | internal/graph/builder.go:223-259 | in a full rebuild an account is bound exactly by the bindings that have it as a subject of kind ServiceAccount in any case, trimmed, by the namespace of the subject or else that of the RoleBinding; a ClusterRoleBinding has no default |
| IdentityLinks.UpdateBindsTheSubjects | internal/reconcile/identity_security.go:111-178 | from any graph, the same holds after an identity update, and pods run as exactly the accounts they name in their namespace |
| StorageLinks.RebuildShowsStorageLinks | internal/graph/builder.go:272-351 | in a full rebuild claims are bound to the volume they name, claims and volumes use their class (a claim without one that of its volume), classes are provisioned by the listed or made driver of the name, and drivers and volumes are linked to exactly the controllers and agents their rule names, agents of a volume on its nodes |
| StorageLinks.UpdateShowsStorageLinks | internal/reconcile/storage.go:150-262 | from any graph and for any map order of the drivers, the same holds after a storage update |
| StorageLinks.UpdateShowsMounts | internal/reconcile/storage.go:150-163 | and pods mount exactly the claims of their namespace that they list |
| EventLinks.RebuildShowsReports | internal/graph/builder.go:181-188 | in a full rebuild an event reports exactly the listed object of its involved kind and UID |
| EventLinks.UpdateShowsTheReport | internal/reconcile/event.go:56-70 | from any graph, an updated event reports exactly that object |
| EventLinks.EvidenceShowsTheBlocked | internal/reconcile/event.go:108-145 | after a rebuild, and after any event update, webhook evidence is stored for exactly the workloads that failed events name, whenever a webhook is listed, and points to listed webhooks |
| EventLinks.OtherEdgesSurvive | internal/reconcile/event.go:89-118 | every other edge survives an event update if and only if it touches no event of the name |
| WorkloadLinks.UpdateShowsReportsOfWorkloads | internal/reconcile/workload.go:110-124 | from any graph, after an update of a workload name, a listed workload of the name is reported by exactly the stored events of its kind and UID |
| WorkloadLinks.UpdateShowsTheBlockedWorkload | internal/reconcile/workload.go:126-148 | and has webhook evidence if and only if a failed event names it and a listed webhook is stored |
| NodeMeaning.RebuiltNodesStand | internal/graph/builder.go:65-188 | every node of a rebuild, Helm inference aside, stands for a listed object of its kind, with its name and namespace and for a pod its node, phase and reason |
| NodeMeaning.RebuiltStoresTheListed | internal/graph/builder.go:65-188 | every listed object, every image and every driver a class makes has a node |
| NodeMeaning.StorageUpdateRemoves | internal/reconcile/storage.go:121-148 | a storage update removes exactly the claims, volumes, classes and drivers the snapshot does not have |
| NodeMeaning.IdentityUpdateRemoves | internal/reconcile/identity_security.go:85-109 | an identity update removes exactly the accounts and bindings the snapshot does not list |
| NodeMeaning.PodUpdateRemoves | internal/reconcile/pod.go:64-88 | a pod update removes no node but other pods of the name, and images |
| NodeMeaning.WorkloadUpdateRemoves | internal/reconcile/workload.go:160-175 | a workload update removes exactly the workloads of the name that are not listed |
| NodeMeaning.ServiceUpdateRemoves | internal/reconcile/service.go:29-87 | a service update removes the services of the name if none is listed or on a deletion, and nothing else |
| NodeMeaning.EventUpdateRemoves | internal/reconcile/event.go:89-106 | an event update removes no node but events of the name |
| Runs.PodUpdateKeeps | internal/reconcile/pod.go:33-225 | from any sound graph a pod update leaves a sound one: ownership paired, every image used, every use running from a stored pod to a stored image |
| Runs.BootstrapKeeps | internal/graph/builder.go:43-378 | every full rebuild is sound |
| Runs.StepKeeps | internal/runtime/manager.go:124-326 | every narrow update, of each of the six strategies, keeps a graph sound |
| Runs.RunKeeps | internal/runtime/manager.go:54-122 | every graph reached by a run is sound |
| Runs.OwnershipStaysPaired | internal/reconcile/pod.go:184-189 | over every run managed_by(p, w) is stored if and only if owns_pod(w, p) is |
| Runs.ImagesAreStoredWhileUsed | internal/reconcile/pod.go:191-214 | over every run an image is stored if and only if some stored pod uses it |
| Runs.OnlyUsesTouchImages | internal/reconcile/pod.go:207-225 | over every run the only edges at an image are uses by stored pods |
| Diagnostic.OpensIsAntitone | internal/service/diagnostic/service.go:551-599 | what is admitted at some depth is admitted at every smaller depth |
| Diagnostic.SettledIsClosure | internal/service/diagnostic/service.go:93-151 | first discovery is shortest: a listing in which every node has been expanded at its first depth is the set of all nodes and edges that admissible walks reach |
| Diagnostic.AgentEdgesStayOnTheRootsNode | internal/service/diagnostic/service.go:568-621 | at a pod root with terminals folded, a listed volume-to-agent edge ends at an agent on the root's own, named node |
| Diagnostic.DriverAgentsStayOut | internal/service/diagnostic/service.go:568-665 | at pod, workload, PVC and PV roots with terminals folded, no driver-to-agent edge is listed |
| Diagnostic.DepthIsRespected | internal/service/diagnostic/service.go:94-100 | every node of the answer lies within the deeper of the two depth limits |
| Diagnostic.ClosureGrowsWithDepth | internal/service/diagnostic/service.go:74-98 | raising the depth limits loses no node and no edge of the unbounded answer |
| DiagnosticMeaning.MissingLimitsTakeDefaults | internal/service/diagnostic/service.go:74-79 | a missing depth is 1, a missing storage depth the depth, missing budgets 200 nodes and 400 edges; what is given is kept |
| DiagnosticMeaning.StepsStayWithin | internal/service/diagnostic/service.go:551-566 | every step of a walk crosses an edge of its own node within the depth limit of its kind, storage only when asked for, and leaves no folded node |
| DiagnosticMeaning.ClassesLeadToTheirDrivers | internal/service/diagnostic/service.go:581-582 | from a storage class a walk goes to its driver and nowhere else |
| DiagnosticMeaning.ReleasesLeadToChartsAndMembers | internal/service/diagnostic/service.go:576-580 | from a Helm release it goes to the chart, and to members when the root is a release |
| DiagnosticMeaning.VolumesLeadToAgentsOfTheRoot | internal/service/diagnostic/service.go:583-587 | from a volume of a pod query it goes to no node agent but one on the node of that pod |
| DiagnosticMeaning.DriversLeadToTheirComponents | internal/service/diagnostic/service.go:588-595 | from a driver it goes to controllers, and to agents unless the root is a pod, workload, claim or volume |
| DiagnosticMeaning.ClassesShowTheirDrivers | internal/service/diagnostic/service.go:581-582 | a class within the storage depth shows its driver |
| DiagnosticMeaning.ReleasesShowChartsAndMembers | internal/service/diagnostic/service.go:576-580 | a release shows its chart, and its members when the root is a release |
| DiagnosticMeaning.DriversShowTheirComponents | internal/service/diagnostic/service.go:588-621 | a driver always shows its controllers, and its agents at other roots |
| DiagnosticMeaning.VolumesShowTheRest | internal/service/diagnostic/service.go:583-587 | a volume shows every edge but those to agents on other nodes than a root pod |
| DiagnosticMeaning.OthersShowEverything | internal/service/diagnostic/service.go:596-598 | a node of any other kind that is not folded shows every edge within its depth limit, with the node at its other end |
| DiagnosticMeaning.ShownEdgesAreLookedAcross | internal/service/diagnostic/service.go:568-599 | an edge is shown only where a walk looks beyond one of its ends, which at a class, release or driver is the right end of the right kind of edge |
| DiagnosticMeaning.NoStorageUnlessAskedFor | internal/service/diagnostic/service.go:551-566 | an answer without storage holds no edge of the eight storage kinds |
| DiagnosticMeaning.FoldedNodesAreEnds | internal/service/diagnostic/service.go:634-665 | while terminals are folded no walk passes through a terminal kind, a component pod or another pod of a pod root |
| DiagnosticMeaning.ClassesJoinNoClaims | internal/service/diagnostic/service.go:581-595 | a walk through a class goes on from its driver to component pods only, so no other claim of the class is reached through it |
| DiagnosticService.ShouldTraverseFrom | internal/service/diagnostic/service.go:568-599 | the admission test decides exactly the admission relation of the walks |
| DiagnosticService.IsTerminalNode | internal/service/diagnostic/service.go:634-665 | the terminal test decides exactly which nodes the walks do not leave |
| DiagnosticService.ExpandNode | internal/service/diagnostic/service.go:109-148 | one node's expansion, in any neighbour order, keeps every listed node justified by a walk, and lists all the node opens or records which budget stopped it |
| DiagnosticService.GetDiagnosticSubgraph | internal/service/diagnostic/service.go:67-174 | exact errors; otherwise both caps hold, nothing repeats, the result is connected to the root, it is within the walk closure, equal to it unless partial, and partial if and only if the closure exceeds a budget, for every neighbour order |
| Expand.Neighbors | internal/ontology/backend.go:121-139 | at most the limit, only matching relations at the entity, each once, and all of them when fewer than the limit come back |
| Expand.ValidateExpandOptions | internal/query/expand.go:28-50 | accepts exactly the queries within all bounds |
| Expand.ExpandSubgraph | internal/query/expand.go:52-135 | exact errors; otherwise at most the limit of edges, at most one node more than edges, both endpoints of each edge listed, all within the hop ball, and the whole ball when the limit is at least twice the stored relations |
| Expand.BallGrows | internal/query/expand.go:70-156 | the ball of a smaller depth lies within that of a larger one, nodes and edges |
| ExpandMeaning.ExpansionsAreHops | internal/query/expand.go:52-156 | an expansion lists entities within its hops and relations of the kind asked for that lead on, in the direction asked for, from an entity one hop nearer, and all of them when the limit is twice the stored relations |
| ExpandMeaning.DirectionsAreKept | internal/ontology/backend.go:185-194 | every relation of an "out" expansion starts, and of an "in" expansion ends, at an entity one hop nearer |
| GraphState.CollapseGraphExpansion | internal/query/graph_state.go:45-100 | succeeds exactly on a named layer over a base; rebuilds the view as the last value under each key over base and remaining layers, once each, in canonical order |
| GraphState.ListsLastIsUnique | internal/query/graph_state.go:123-152 | there is only one such sorted list, so map order cannot show |
| GraphState.CollapsesSucceedAlike | internal/query/graph_state.go:45-66 | after collapsing one layer another can be collapsed exactly when it is a different one |
| GraphState.CollapsesCommute | internal/query/graph_state.go:45-100 | collapsing a then b gives the document of b then a, but for the last explanation line, which names the last collapse |
| GraphState.CollapseForgetsTheView | internal/query/graph_state.go:45-100 | the result depends on base and layers alone, not on what the document shows |
| GraphState.CollapseShowsTheRest | internal/query/graph_state.go:68-100 | the collapsed view holds each edge of the base and the remaining layers once for its ends and kind, each node once for its identifier, and nothing else |
| GraphState.CollapseKeepsTheNotes | internal/query/graph_state.go:68-100 | its explanation holds the notes of the base and the remaining layers and ends with the collapse |
| GraphState.CollapseIsInOrder | internal/query/graph_state.go:123-152 | nodes are in order of kind, namespace, name and identifier, edges in order of their ends and kind |
| GraphState.TheLastTimeCounts | internal/query/graph_state.go:92-94 | the collection time is that of the last remaining layer that carries one, else of the base |
| Fingerprints.FingerprintMap | internal/collect/k8s/stream.go:885-899 | the fingerprint of a string map is the same for every map order |
| Fingerprints.WorkloadRefFingerprints | internal/collect/k8s/stream.go:670-702 | the loops over workloads and replica sets yield the specified references, replica sets under their resolved workloads |
| SnapshotOrder.FingerprintsForgetOrder | internal/collect/k8s/stream.go:491-947 | reordering lists, labels, owner references and subjects changes no category input and not the total |
| MapReading.MapInFront | internal/collect/k8s/stream.go:885-899 | in front of a slash and any text, the fingerprint of a label map tells the map and where it ends |
| FingerprintReading.WorkloadTold | internal/collect/k8s/stream.go:759-771 | a workload's fingerprint tells every field, and the owner references up to order |
| FingerprintReading.ReplicaSetTold | internal/collect/k8s/stream.go:773-783 | the same for replica sets |
| FingerprintReading.WorkloadsAreNoReplicaSets | internal/collect/k8s/stream.go:759-783 | no text is the fingerprint of both a workload and a replica set |
| ObjectReading.PodTold | internal/collect/k8s/stream.go:785-800 | a pod's fingerprint tells every field, and its lists up to order |
| WatchedWorkloads.ReplicaSetsTold | internal/collect/k8s/stream.go:670-702 | although a replica set is printed once per workload that owns it, equal workload texts come from the same replica sets, each as often |
| WatchedView.UnwatchedGoesUnnoticed | internal/collect/k8s/stream.go:491-516 | snapshots with the same watched view have the same fingerprint inputs |
| WatchedView.InvolvedUIDGoesUnnoticed | internal/collect/k8s/stream.go:850-860 | a change of the UID of an event's object changes no input |
| WatchedView.AlikeViewsAgree | internal/collect/k8s/stream.go:491-516 | watched views alike but for order give the same inputs, category by category and in all |
| WatchedTheorem.OrderOfTheView | internal/collect/k8s/stream.go:491-516 | snapshots alike but for order have watched views alike but for order |
| WatchedTheorem.InputsAgreeExactlyWhenViewsDo | internal/collect/k8s/stream.go:491-947 | on readable fields, two snapshots are hashed over the same input if and only if their watched views are alike but for order |
| WatchedTheorem.SlashesHideABoundary | internal/collect/k8s/stream.go:850-860 | with a slash inside a field two different events have one fingerprint |
| Polling.FirstChangedRef | internal/collect/k8s/stream.go:569-596 | reports the least added or changed key, else the least removed key, else the poll itself |
| Polling.FirstChangedIsUnique | internal/collect/k8s/stream.go:569-596 | that reference is determined by the two maps |
| Polling.PollingStream.Tick | internal/collect/k8s/stream.go:459-489 | emits exactly when the total hash moved; the baseline moves on the first snapshot and when the sink accepts, and at no other time |
| Polling.ReorderingIsQuiet | internal/collect/k8s/stream.go:459-489 | a poll that finds only a new order, or changes in what is not watched, emits nothing and keeps every field, for every hash function |
| Polling.QuietExactlyWhenViewsAgree | internal/collect/k8s/stream.go:459-489 | on readable fields and where the hash tells the two inputs apart, a poll is quiet if and only if the watched view changed by nothing but order |
| Polling.ReportsNameAChange | internal/collect/k8s/stream.go:535-548 | a reported kind is the first category whose fingerprints moved, and they did move |
| PollingMeaning.ReportsNameAListedObject | internal/collect/k8s/stream.go:535-702 | a report names, by namespace and name, an object of the reported category that the new snapshot or the baseline lists, or else the poll itself |
| Manager.BootstrapRuntime | internal/runtime/bootstrap.go:22-53 | a new kernel holding exactly the full rebuild of the snapshot |
| Manager.Reconcile | internal/runtime/manager.go:124-326 | fails exactly on a missing namespace or name, then leaving the graph alone; otherwise takes the step its strategy, snapshot and event call for |
| Manager.Manager.Start | internal/runtime/manager.go:54-69 | counts and readiness start over; on success the run is one bootstrap of the snapshot, on failure kernel and snapshot stay |
| Manager.Manager.ApplyNarrow | internal/runtime/manager.go:124-326 | succeeds exactly when the collection does, a kernel exists and the names are given; then the run grows by one step of the strategy, otherwise kernel graph, snapshot, counts and readiness stay |
| Manager.Manager.Apply | internal/runtime/manager.go:71-122 | narrow if and only if it can be, otherwise a rebuild; ready never falls back, the seven counters sum to the calls that returned nil, and a failing call leaves kernel, graph, snapshot and counts unchanged |
| Manager.ServedGraphsAreSound | internal/runtime/manager.go:54-122 | whatever the manager serves has paired ownership and stores exactly the images in use |
| Served.StorageEventsShowStorage | internal/reconcile/planner.go:53-74 | after an event of a storage kind, in any case and trimmed, the storage links of the served graph are as the snapshot collected for it says |
| Served.IdentityEventsShowBindings | internal/reconcile/planner.go:53-74 | after an identity event the bindings, and the accounts of pods, are |
| Served.PodEventsShowThePod | internal/reconcile/planner.go:53-74 | after a pod event the links of the pod are |
| Served.ServiceEventsShowTheSelection | internal/reconcile/planner.go:53-74 | after a service event the selection of the service is |
| Served.WorkloadEventsShowOwnership | internal/reconcile/planner.go:53-74 | after a workload event the ownership at each workload of the name is |
| Served.EventsShowTheBlocked | internal/reconcile/planner.go:53-74 | after an event of an event webhook evidence is stored for exactly the blocked workloads |
| Served.RebuildsShowEverything | internal/runtime/manager.go:54-122 | after a full rebuild all these links are |
| Served.EventsCountOnce | internal/runtime/manager.go:71-122 | a narrow update raises the count of its own kind by one, anything else that of full rebuilds, and no other count moves |

## Left out

- Kubernetes clients, informers and collection: a snapshot, or a failed collection, is an input.
- HTTP server, viewer, command line, configuration, OWL output: plumbing and text.
- Contexts, timeouts, locks and timestamps (`LastSeenAt`, the times in runtime status): steps are single-threaded, and edges are compared without times.
- Edge provenance: of source type, state, resolver and confidence only the resolver is kept; the agreement theorems compare it, the meaning theorems speak of which edges are stored.
- Node attributes: the agreement theorems compare them; what they mean is stated for pods only.
- Helm provenance and workload-controller inference: functions of the snapshot, assumed to yield their own kinds of edges and to leave images alone (`InfersWell`).
- Image parsing into repository, tag and digest, and rule-string parsing: easy, and image reassembly is not a round trip.
- CSI evidence strings and the builder's `lastEvidence`: messages about absent components.
- Diagnostic ranking, warnings, summaries, recipes and lanes: lists of constants.
- Entry lookup by kind and name in the query facade: one scan; the facade is folded into the kernel.
- NodeCount and EdgeCount in runtime status: the first counts the builder's list with its repetitions.
- Errors for a nil kernel inside a reconciler: the reconcilers here are given a kernel.
- Per-resource upsert counters of the storage and identity results: each is the length of a list of the snapshot.
- ServiceReconciler.Apply: does not say how many edges a deletion reports, because with several services of one name, one selecting another, the number depends on the map order; whether anything was deleted is stated.
- Change types: everything but a deletion is an upsert, which is how the reconcilers branch.
- The hash: a function parameter; nothing is claimed about collisions, so two different snapshots may look alike to the stream.
- Integer widths: replica counts and the like are unbounded, as they are only copied and printed.
- Letters outside ASCII: trimming, lower-casing and case-insensitive comparison are exact for ASCII.
- Fields containing `|`: identifiers are strings without it, as `GraphModel.SeparatorsInEndpointsCollide` shows they must be for keys to be unique.
- Equality of affected_by_webhook edges after a narrow update with a rebuild's: the webhook is an arbitrary map element; `EventReconciler.EventUpdateMatchesRebuild` states what is left.
- Expand.ExpandSubgraph: does not say that fewer edges than the limit mean a complete answer, because relations already listed use up the same allowance and so this is false.
- OwnerLoss.CompleteExactlyWhenToldApart: asks that each of two objects that may be confused is the only way to some workload, because otherwise nothing need be missed, as `OwnerLoss.ConfusedWithoutLoss` shows; there the two halves that ask for nothing remain, `OwnerLoss.ToldApartResolvesCompletely` and `OwnerLoss.CompleteTellsHidersApart`.
- WatchedTheorem.InputsAgreeExactlyWhenViewsDo: asks for fields free of separators, without which different snapshots can have one input, as `WatchedTheorem.SlashesHideABoundary` shows; UIDs of workloads and replica sets are taken to hold a dash, as generated ones do.
- Builder.Build: takes every name map but the drivers' from whole lists rather than growing it entry by entry; the builder's evidence strings are not kept.
- PodReconciler.DeletePods: does not say that a released identifier which is itself a stale pod is reported; uses run to images, never to pods.
- Annotations: read by Helm inference only, and by no fingerprint.
- ServiceReconciler.ServiceUpdateMatchesRebuild: states equality of the selections of the service's current identifier only, because a former identifier keeps its node and edges.
