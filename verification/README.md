# Verified model of the YANET operator

The YANET operator is a Kubernetes controller. A `Yanet` object (an *installation*) selects nodes and, on each of
them, runs Deployments for the dataplane, the controlplane, the bird adapter and further operator roles; a role may
also run as a native sidecar inside the dataplane Pod. A cluster-wide `YanetConfig` holds the palette of roles, the box
types that choose among them, the shared Services and a kill switch. This project models the operator's hard core in
Dafny and proves what it promises over every run, every patch and every order of its inputs.

`dafny verify dfyconfig.toml` checks everything. The files fall into five groups (`Options` holds the one `Option`,
`Filters` says what filtering a list means). Lemmas over function parameters carry `{:induction false}`: automatic
induction would range over those functions too.

- **The cluster as a state machine.** `Cluster`, `NodeClaims`, `PlacementGate`, `ConfigMapRefs`, `ConfigMaps` and
  `PruneLoops` define the objects and the decisions and loops of a pass, as methods proved against specifications.
  `Protocol` cuts a reconcile pass into its decisions and its writes, one at a time even inside its loops, and lets
  people, lagging workload controllers and garbage collection act between any two of them. `Ownership`, `Tenancy`,
  `Placement`, `Retention` and `Handover` prove invariants over all runs from an empty cluster, `Clearance` gives a
  condition on one state under which nobody is ever hindered, `SoloPass` says exactly what one undisturbed pass
  achieves, `ReportOnly` that without autoSync nothing but the finalizer is written, and `Scenarios` reaches the
  counterexamples from an empty cluster.
- **Writing one object.** `WorkloadNames`, `ManagedMeta` (tracked labels and annotations, over `Strings`), `Throttle`,
  `DeploymentSync` and, joining these two over any sequence of applications, `UpdateSpacing`.
- **Switches.** `StopSwitch` keeps the order of checks, calls and retries of both reconcilers and leaves every outcome
  open; `Snapshot` interleaves any number of config refreshers; `StopDelivery` joins the two.
- **Composing a Pod.** `Pods`, `PodPorts`, `Roles`, `NativeSidecars`, `Listeners`, `Identity`, `Rendering` and
  `ServiceSelectors` follow a template from the palette through an arbitrary patch to the port a Service reaches.
  `SidecarContents` follows every container's content on the way, and `PlainPalette` renders every palette of plain parts.
  `Hugepages` sizes its reservation.
- **Shared Services.** `SharedServices` plans, gates, writes and prunes them for a whole listing of installations;
  `ServiceOutcomes` says what becomes of a Service in terms of what the installations ask for.

## What holds, and what does not

- A node never has two owners: in every run at most one installation controls Deployments on a node, and the owner of a
  controlled Deployment still exists, although selectors, labels and nodes change under a running pass.
- Pods of two installations never share a node: whatever ReplicaSet or Pod is left on a node belongs to one installation,
  which still exists and still controls a Deployment there.
- A node claimed by several live installations goes to one: a holder before one that only selects, then the older, then
  the one whose full name comes first.
- **Exchanging selectors** terminates, however cyclic the exchange, while no gate is closed and no planned name is
  taken. `Clearance` makes this a condition on the first state only: nothing stored or wanted runs a wanted role the
  other way, and planned names are free and unshared. Otherwise it need not: a pass whose placement gate is closed, or
  one of whose planned names belongs to somebody else, returns before the loop that deletes, so it releases nothing.
  `SoloPass.ReleasesExactly` gives the exact condition for one pass, and `Scenarios` reaches a cluster in which a closed
  gate keeps a node from the installation that now selects it for ever, through every run without faults, edits or a
  drain by hand.
- **Roles.** No role runs both standalone and as a sidecar for one installation on one node, counting everything that
  can still create Pods, as long as names are kept apart (admission of the configuration enforces that,
  api/v1alpha1/yanetconfig_webhook.go:294-309 and 361-376) and no plan passes the gate over a hidden clash. The gate
  reads the stored templates, so a template that was replaced before its controller observed it is hidden from it.
  Wherever a plan passes over such a clash, the role can be run both ways; `Scenarios` reaches this from an empty
  cluster. The gate opens exactly when whatever opposes the plan is scaled to zero, observed to be so and without Pods.
- A pruned ConfigMap is mentioned by nothing that runs or can still start, lagging controllers included: a finished
  rollout is one whose generation was observed.
- Whatever a patch does, a dataplane that renders has exactly the switched-on sidecars in palette order; every target
  port of a role's Service leads to one port of that role's container, in its slot when it is a sidecar; and a Service
  selects a rendered Pod exactly when it has the box type and runs the role.
- A rendered dataplane holds, for each switched-on sidecar, its initializers in order and then itself, each with the
  content of its own Pod, or with what a patch made of that; no patch drops, reorders or repeats them.
- **Stop.** At most one write follows a visible, persisted stop while no refresh publishes an absent or broken answer.
  A single failed read clears the snapshot, and with it the stop.
- **Names.** A Deployment name tells the node. On one node it tells the workload exactly when no operator carries the
  name of a controlplane instance; admission lets `controlplane-numa0` through, and then the two workloads overwrite
  each other for ever.
- **Throttle.** Recorded grants for different nodes are spaced, but at the very instant the window ends another node is
  answered "no delay" without a grant being recorded, so permissions are not. The exact condition is proved, and so is
  the same for updates of stored Deployments: they are spaced exactly when none falls on that instant.
- **Shared Services.** What is written does not depend on the listing order, but which scope of a dispute is protected
  from pruning does: the scope listed first is not. The bounds for every order are proved, with both extremes reached.
- **Shared Services.** A scope stops being gated with its last live installation, so its Services go even while old
  producers run.
- **Native sidecars.** Restoring twice equals restoring once exactly when captured containers of one name agree.

## Assumptions

- Passes of one controller do not overlap (one worker, leader election), and a read within a pass is current at that
  step. The list calls behind one decision count as one instant: installations and Deployments for a claim;
  Deployments, ReplicaSets and Pods for the gate; Deployments, Pods and ConfigMaps for a sweep. Reads of the
  configuration never go backwards.
- A plan holds one workload for each name; `WorkloadNames` says exactly when rendering gives one.
- Outsiders do not edit owner references, identity labels, templates or the finalizer of managed objects and do not
  scale managed Deployments up. Deleting a Deployment is in the foreground: it disappears after its ReplicaSets, and
  these after their Pods.
- The scheduler honours the node a template is pinned to. An unset replica count is one.
- The Deployment controller may act on any generation it has not yet passed by. A status that shows a finished rollout
  is true: the observed generation was acted on, and older ReplicaSets can no longer create Pods.
- Short hashes are a parameter: eight characters, none a dash. Distinct identities in a palette are what the code
  checks; distinct hashes of the nodes in play are assumed in `Handover` and `Tenancy` only.
- Patches, API defaulting and quantity parsing are arbitrary functions; the first may fail. Clocks, API outcomes and
  reads are parameters or open choices. Loops over Go maps become loops in any order, or comprehensions.

## Model

| member | source | states |
|---|---|---|
| NodeClaims.FindWorkload | internal/controller/yanet_reconciler.go:753-764 | the flag is set exactly when the installation controls a Deployment on the node |
| NodeClaims.CheckPair | internal/controller/yanet_reconciler.go:772-800 | a pair conflicts exactly when the other installation claims the node and is deleting or not outranked; eviction is asked for exactly for an outranked incumbent |
| NodeClaims.ValidateExclusiveNodes | internal/controller/yanet_reconciler.go:737-820 | no conflict exactly when the claim is exclusive; the conflicts are the blocking pairs; cleanup is exactly evicted and abandoned nodes |
| NodeClaims.OutranksIsTotal | internal/controller/yanet_reconciler.go:767-831 | workload, then age, then namespace/name ranks any two installations, since namespaces hold no slash |
| NodeClaims.OutranksIsAsymmetric | internal/controller/yanet_reconciler.go:767-831 | no two installations outrank each other |
| NodeClaims.OutranksIsTransitive | internal/controller/yanet_reconciler.go:767-831 | the ranking is transitive |
| NodeClaims.AtMostOnePasses | internal/controller/yanet_reconciler.go:737-820 | two installations never pass the check for one node |
| NodeClaims.OnlyTopClaimantPasses | internal/controller/yanet_reconciler.go:767-820 | with no deleting claimant there is one top claimant, and passing means being it and selecting the node; it is ahead of every other by holding, then age, then full name |
| NodeClaims.BlocksExactly | internal/controller/yanet_reconciler.go:767-831 | in raw fields: another installation blocks exactly when it holds or selects the node and is deleting, or the asking one is not ahead by holding, age or name |
| NodeClaims.EvictedExactly | internal/controller/yanet_reconciler.go:772-800 | in raw fields: a holder is evicted exactly when another holder is older, or as old and not behind by name |
| PlacementGate.ListPlacementProducers | internal/controller/operator_placement.go:96-125 | the producers are exactly the templates some object may still create or keep Pods of |
| PlacementGate.DesiredRoles | internal/controller/operator_placement.go:32-55 | the collected roles are exactly those wanted by rendered workloads with replicas |
| PlacementGate.ValidateOperatorPlacementTransition | internal/controller/operator_placement.go:29-86 | accepts exactly when, for every rendered workload with replicas, each opposing Deployment has zero replicas, zero status replicas and an observed generation, each opposing ReplicaSet is empty and settled and each opposing Pod is done |
| PlacementGate.GateOpensWhenDrained | internal/controller/operator_placement.go:29-131 | the gate of the state machine is open exactly under that condition on the fields |
| ConfigMapRefs.CollectPodConfigMapRefs | internal/controller/prune.go:279-306 | adds exactly the ConfigMaps a Pod mentions in volumes, projected volumes, env and envFrom |
| ConfigMaps.OrphanConfigMaps | internal/controller/prune.go:194-277 | selects exactly the controlled, unwanted ConfigMaps not already being deleted that no template or Pod mentions while no rollout is pending |
| ConfigMaps.DisposableExactly | internal/controller/prune.go:194-277 | the same selection in raw fields: owned, labelled, not being deleted, not kept, and every Deployment of the installation finished and not mentioning it, nor any of its Pods |
| PruneLoops.PruneOrphanDeployments | internal/controller/prune.go:140-192 | marks exactly the orphans whose deletion is not refused, and fails exactly when one is; without autoSync it changes nothing and reports exactly the controlled, unwanted Deployments |
| PruneLoops.PruneConflictingDeployments | internal/controller/prune.go:39-93 | fails exactly when a change it has to make is refused; otherwise every Deployment on a node to clean up is marked and, for a disabled installation, the others are drained |
| PruneLoops.OrphanLoopIsTheMethod | internal/controller/prune.go:140-192 | the interleaved loop of the state machine, once through its listing, leaves what the method leaves |
| PruneLoops.ReleaseLoopIsTheMethod | internal/controller/prune.go:39-93 | the same for the loop that releases nodes |
| Ownership.ExclusiveMeansHeld | internal/controller/yanet_reconciler.go:247-261 | a validated claim leaves no other owner on the selected nodes |
| Ownership.StepKeepsInvariant | internal/controller/yanet_reconciler.go:109-482 | every step of a pass or of its surroundings keeps one owner per node, enlisted owners and a held plan |
| Ownership.NodesHaveOneOwner | internal/controller/yanet_reconciler.go:137-391 | in every run from an empty cluster nodes have one owner and owners exist |
| Ownership.IncumbentsStay | internal/controller/yanet_reconciler.go:805-817 | no reachable pass tells an installation to leave a node it selects and holds |
| ReportOnly.ReportingWritesNothing | internal/controller/yanet_reconciler.go:247-421 | in every run the only write for a live installation without autoSync is its finalizer |
| Tenancy.StepKeepsInvariant | internal/controller/yanet_reconciler.go:651-662 | with plans named after their nodes, every step keeps Deployments on one node through all generations, ReplicaSets with their Deployment and Pods with their ReplicaSet |
| Tenancy.PodsHaveOneTenant | internal/controller/yanet_reconciler.go:805-810 | in every such run all ReplicaSets and Pods on a node belong to one installation, which still exists and still claims the node |
| Placement.GateSeesPotential | internal/controller/operator_placement.go:88-131 | every template that can still start Pods is seen by the gate, or is an unobserved generation of a replaced template |
| Placement.GateMakesCompatible | internal/controller/operator_placement.go:29-131 | a plan that passes the gate over nothing hidden clashes with nothing that can still start Pods |
| Placement.RolesRunOneWay | internal/controller/operator_placement.go:29-131 | in every run with names apart and nothing hidden no role runs, or can still come to run, both ways for one installation on a node |
| Placement.HiddenClashRunsBothWays | internal/controller/operator_placement.go:96-125 | wherever a plan passes the gate over a hidden clash some continuation runs the role both ways |
| Placement.MixedPlanRunsBothWays | internal/controller/yanet_reconciler.go:532-603 | a plan using one name both ways can be written and then runs both ways |
| Scenarios.LaggingControllerRace | internal/controller/operator_placement.go:96-125 | from an empty cluster, with names apart, a lagging controller runs a role both ways |
| Scenarios.MixedPlanFromEmpty | api/v1alpha1/yanetconfig_webhook.go:361-376 | without names kept apart, a role runs both ways from an empty cluster |
| Scenarios.StuckForever | internal/controller/yanet_reconciler.go:283-295 | in every run without faults, edits or a drain by hand the closed gate stays closed |
| Scenarios.ClosedGateKeepsNode | internal/controller/yanet_reconciler.go:247-295 | from an empty cluster a state is reached whose every such run keeps the node lingering and never lets its new installation pass |
| Retention.SetRunsCurrentTemplate | internal/controller/prune.go:206-232 | once every rollout is finished, a ReplicaSet that can create Pods runs a current template |
| Retention.UnusedIsUnneeded | internal/controller/prune.go:206-277 | what no stored template or Pod mentions while every rollout is finished is mentioned by no unobserved generation or able ReplicaSet either |
| Retention.SweepDoomsUnneeded | internal/controller/prune.go:194-277 | the selection for deletion holds only names nothing uses |
| Retention.PrunedConfigMapsAreUnneeded | internal/controller/prune.go:194-277 | in every run a ConfigMap at the moment of deletion is mentioned by no generation a controller may act on, no Pod and no able ReplicaSet |
| WorkloadNames.NameTellsNode | internal/manifests/builder.go:338-343 | equal Deployment names of one installation mean equal nodes, with distinct node hashes |
| WorkloadNames.ToLowerKebab | internal/manifests/builder.go:494-508 | the loop computes the kebab form |
| WorkloadNames.KebabKeeps | internal/manifests/builder.go:494-508 | a part without capitals is kept as it is, so admitted names are their own kebab form |
| WorkloadNames.NamesTellWorkloads | internal/manifests/builder.go:199-204 | on one node all workload names differ exactly when no operator is named like a rendered controlplane instance |
| WorkloadNames.AdmittedOperatorTakesInstance | api/v1alpha1/yanetconfig_webhook.go:294-309 | an operator name that admission accepts and the fan-out also uses |
| Handover.CompletedPassLeaves | internal/controller/prune.go:140-192 | once a deleting loop is through its listing, everything of the installation on nodes it no longer selects is marked |
| Handover.SmoothRunServes | internal/controller/prune.go:39-93 | in a run without edits, faults or hindrance no Deployment becomes misplaced, marks stay, and an installation whose pass has ended is leaving |
| Handover.RoundLeavesNothingLingering | internal/controller/yanet_reconciler.go:247-261 | after a pass of each, every misplaced Deployment is marked |
| Handover.RoundsEmptyTheMeasure | internal/controller/prune.go:39-93 | then every further round takes a misplaced Deployment away until there is none |
| Handover.NobodyIsRefused | internal/controller/yanet_reconciler.go:737-820 | at rest with disjoint selectors every claim is exclusive |
| Handover.ExchangesTerminate | internal/controller/yanet_reconciler.go:247-421 | after any history, more unhindered rounds than there are misplaced Deployments leave nothing misplaced and nobody refused ever after |
| Handover.MisplacedDecreases | internal/controller/prune.go:39-93 | the misplaced Deployments never grow in a quiet step and shrink when a deletion finishes |
| Clearance.StepKeepsFree | internal/controller/yanet_reconciler.go:283-421 | a quiet, faultless step keeps planned names free and everything stored suited to what is wanted |
| Clearance.FreeRunsAreSmooth | internal/controller/yanet_reconciler.go:283-421 | from such a state no quiet, faultless run ever meets a closed gate or a taken name |
| Clearance.FreeExchangesTerminate | internal/controller/yanet_reconciler.go:247-421 | after any history ending in such a state, quiet rounds leave nothing misplaced and nobody refused or turned away ever after |
| SoloPass.ReleasesExactly | internal/controller/yanet_reconciler.go:247-421 | an undisturbed pass leaves all misplaced Deployments marked exactly when they were, or its claim is refused, or its gate is open and no planned name is taken |
| SoloPass.WholePassExists | internal/controller/yanet_reconciler.go:109-482 | from every calm idle cluster each installation whose plan renders has such a pass |
| ManagedMeta.SerializeManagedKeys | internal/controller/yanet_reconciler.go:1175-1185 | the text is the comma-joined keys in their one sorted order |
| ManagedMeta.ParseUndoesSerialize | internal/controller/yanet_reconciler.go:1158-1185 | parsing gives back the keys exactly when all are non-empty and comma-free |
| ManagedMeta.MergeManagedKV | internal/controller/yanet_reconciler.go:1103-1128 | retracted keys go, desired entries win, foreign entries stay |
| ManagedMeta.ObjectMeta.MergeManagedMeta | internal/controller/yanet_reconciler.go:1130-1156 | the object ends as the merged labels and annotations with both trackers rewritten |
| ManagedMeta.HistoryFollowsLayers | internal/controller/yanet_reconciler.go:1103-1182 | over any history of merges and outside edits the object shows what a layered reference shows |
| ManagedMeta.LastDesiredStateWins | internal/controller/yanet_reconciler.go:1103-1182 | after D1..Dn an untracked object has Dn plus the original entries no Di used |
| ManagedMeta.MergeIsIdempotent | internal/controller/yanet_reconciler.go:1130-1156 | merging the same state again changes nothing |
| Throttle.UpdateThrottle.CheckUpdateRequeue | internal/controller/yanet_controller.go:57-77 | the delay and the new state are those of the answer function |
| Throttle.RecordedGrantsAreSpaced | internal/controller/yanet_controller.go:57-77 | any two recorded grants for different nodes lie more than the window apart |
| Throttle.WaitingOnceIsEnough | internal/controller/yanet_controller.go:57-77 | a refused node that waits its delay, with no grant between, waits no more |
| Throttle.AnswersFollowTheLastGrant | internal/controller/yanet_controller.go:57-77 | over any history: the node of the last recorded grant never waits, another waits exactly until the window ends, and a grant is recorded exactly for the former or past the window |
| Throttle.NoWindowNoWaiting | internal/controller/yanet_controller.go:57-77 | without a window nobody waits and nothing is recorded |
| Throttle.PermissionsSpacedUnlessOnBoundary | internal/controller/yanet_controller.go:65-76 | permissions are spaced exactly when no other node asks at the instant the window ends |
| Throttle.BoundaryLetsTwoNodesWrite | internal/controller/yanet_controller.go:65-76 | three requests in which two nodes may write one tick apart |
| DeploymentSync.Reconciler.DesiredDeploymentUpdate | internal/controller/yanet_reconciler.go:999-1023 | the candidate is the stored object with rendered parts, normalised only on apparent drift |
| DeploymentSync.Reconciler.ApplyDeployment | internal/controller/yanet_reconciler.go:913-997 | each state comes from exactly its facts on the stored object, owners, drift, autoSync and throttle; only "synced" changes the stored object, to the defaulted spec; the delay is what is left of the window; the throttle changes only with an update |
| DeploymentSync.AppliedTells | internal/controller/yanet_reconciler.go:913-997 | the specification function says exactly that, in the stored fields |
| DeploymentSync.SyncedMeansRendered | internal/controller/yanet_reconciler.go:913-997 | "synced" means the stored object holds the defaulted spec, owner and metadata |
| DeploymentSync.SecondApplicationIsSilent | internal/controller/yanet_reconciler.go:913-1030 | a second application persists nothing, reports "synced" and leaves the throttle alone |
| DeploymentSync.SharedNameNeverSettles | internal/controller/yanet_reconciler.go:913-997 | two workloads of one name with different defaulted specs change the stored object at every synced application |
| UpdateSpacing.UpdatesSpacedUnlessOnBoundary | internal/controller/yanet_reconciler.go:945-997 | over any sequence of applications sharing the throttle, updates of existing Deployments on different nodes lie more than the window apart exactly when none is made at the instant the window of another node ends |
| StopSwitch.GuardedTracesStop | internal/controller/yanet_reconciler.go:683-693 | if each write directly follows its own passed check, at most one write follows a lasting stop |
| StopSwitch.UpdateStatus | internal/controller/yanet_reconciler.go:59-87 | keeps the discipline through every conflict retry |
| StopSwitch.ApplyInlineConfigMaps | internal/controller/yanet_reconciler.go:841-905 | keeps the discipline for every ConfigMap |
| StopSwitch.ApplyDeployment | internal/controller/yanet_reconciler.go:913-997 | keeps the discipline through create, dry run, update and retries, of conflicts in the dry run too |
| StopSwitch.PruneConflictingDeployments | internal/controller/prune.go:39-93 | keeps the discipline for drains and deletions |
| StopSwitch.PruneOrphans | internal/controller/prune.go:140-277 | keeps the discipline for Deployment and ConfigMap deletions |
| StopSwitch.HandleYanetDeletion | internal/controller/yanet_reconciler.go:630-675 | keeps the discipline up to removing the finalizer |
| StopSwitch.ReconcileYanet | internal/controller/yanet_reconciler.go:109-482 | at most one write of a whole pass follows a stop that stays published, whatever interleaves |
| StopSwitch.ApplySharedService | internal/controller/shared_services.go:288-334 | keeps the discipline through create and update retries |
| StopSwitch.ReconcileSharedServices | internal/controller/shared_services.go:51-205 | at most one Service write follows a lasting stop |
| Snapshot.StepKeepsInvariant | internal/controller/yanetconfig_controller.go:82-108 | each lock, read or publish keeps one lock holder whose read is current |
| Snapshot.PublicationsNeverGoBack | internal/controller/yanetconfig_controller.go:82-108 | published versions never decrease and the visible config is the newest published |
| StopDelivery.PersistedStopStops | internal/controller/yanetconfig_controller.go:82-108 | after a visible stop that stays in the configuration, a guarded reconciler writes at most once while no refresh publishes an absent or broken answer |
| StopDelivery.BrokenRefreshReleases | internal/controller/yanetconfig_controller.go:97-101 | one refresh whose read fails lets a guarded reconciler write again and again under a persisted stop |
| PodPorts.CheckedMeansNeverClash | internal/manifests/pod_ports.go:65-111 | checking each container against the earlier ones it overlaps covers every lifecycle phase and no more |
| PodPorts.ClashesExactly | internal/manifests/pod_ports.go:65-111 | two containers clash exactly when two of their ports have one number and one protocol, unset being TCP |
| PodPorts.ValidateConcurrentPodPorts | internal/manifests/pod_ports.go:65-111 | accepts exactly the Pods in which no two containers running in one phase share a port and protocol |
| PodPorts.ValidatePodContainerNames | internal/manifests/labels.go:195-226 | accepts exactly unique names with no managed sidecar among a dataplane's application containers |
| PodPorts.CheckContainer | internal/manifests/operator_placement.go:217-251 | accepts exactly legal fields and port names new to the Pod |
| PodPorts.ValidateComposedPod | internal/manifests/operator_placement.go:192-265 | accepts exactly the well-formed Pods, on the fields kept here |
| Roles.ScopedNameStarts | internal/manifests/operator_placement.go:27-33 | a scoped name starts with the role's identity even when shortened |
| Roles.ScopedNamesDiffer | internal/manifests/operator_placement.go:27-33 | roles with different identities never share a scoped container name |
| Roles.ScopedNameFits | internal/manifests/operator_placement.go:27-33 | a scoped name fits a DNS label, is unshortened where it can be and otherwise ends in the hash of the full name |
| Roles.SlotsAreApart | internal/manifests/listeners.go:146-155 | legal slots lie in 1..65535, and equal numbers mean the same slot and listener |
| Roles.SlotsUseTheRange | internal/manifests/listeners.go:146-155 | the last allowed slot ends within the port range and the next would not |
| Roles.ValidateListeners | api/v1alpha1/operator_validation.go:24-36 | accepts exactly lists of distinct supported protocols |
| Roles.ResolveDataplaneSidecars | internal/helpers/resolve.go:297-344 | succeeds exactly for valid palettes and gives every entry, selected or not, the slot of its palette place |
| Roles.SlotsAreStable | internal/helpers/resolve.go:297-344 | resolved sidecars are legal, and switching roles moves no name, listener or slot |
| Roles.ResolvedTells | internal/helpers/resolve.go:297-344 | an installation's switch overrides the box's, which overrides "on"; a sidecar the box does not select is off; slots and listeners are those of the palette entry |
| NativeSidecars.PodSpec.RestoreNativeSidecars | internal/manifests/labels.go:140-193 | the init containers become the spliced list of the specification |
| NativeSidecars.RestoreExpected | internal/manifests/labels.go:157-170 | each captured container with patched content and its own restart policy |
| NativeSidecars.Splice | internal/manifests/labels.go:172-192 | managed places are filled in order, the last one with all that remain |
| NativeSidecars.CapturedComeBack | internal/manifests/labels.go:140-193 | after any patch the managed containers are the captured ones in captured order and the others are unchanged in order |
| NativeSidecars.RestoredContent | internal/manifests/labels.go:140-193 | after any patch each captured container has its own name and policy and the content of the last patched container of its name, or its own if there is none |
| NativeSidecars.OthersKeepPlaces | internal/manifests/labels.go:140-193 | every other container comes back at the place computed for it |
| NativeSidecars.RestoringTwice | internal/manifests/labels.go:140-193 | restoring again changes nothing exactly when same-named captured containers agree |
| NativeSidecars.DuplicatesAreNotStable | internal/manifests/labels.go:140-193 | two captured containers of one name that restoring twice turns into one content |
| Listeners.FindContainer | internal/manifests/listeners.go:157-177 | finds a container exactly when the name occurs once |
| Listeners.ValidatePortNameOwner | internal/manifests/listeners.go:179-193 | accepts exactly when no other container uses the port name |
| Listeners.ConfigureComponentListeners | internal/manifests/listeners.go:106-144 | succeeds exactly when configurable; then only the owner's ports change, to owned ones first and the rest kept |
| Listeners.ConfiguringWires | internal/manifests/listeners.go:106-144 | each listener then leads to exactly one port, in the role's container and slot |
| Listeners.ConfiguringKeeps | internal/manifests/listeners.go:106-144 | ports of other containers lead where they did |
| Listeners.KeptIsFilter | internal/manifests/listeners.go:106-144 | the kept ports are exactly those not named like a listener, in their order |
| Listeners.ConfiguringKeepsOtherPorts | internal/manifests/listeners.go:106-144 | configuring changes one container at most, which keeps all its other ports in order |
| Listeners.ConfiguredPortsStay | internal/manifests/listeners.go:106-144 | configuring ports again changes nothing |
| Listeners.ConfigureListeners | internal/manifests/listeners.go:86-104 | succeeds exactly when each role in turn can be configured; then every listener of the component and its switched-on sidecars leads to one port, and nobody else uses any sidecar's port names |
| Rendering.CheckPart | internal/manifests/operator_placement.go:108-134 | a sidecar's own Pod is accepted exactly when shaped, configured and well formed, switched on or not |
| Rendering.ComposeSidecar | internal/manifests/operator_placement.go:98-164 | an accepted, switched-on part adds its initializers, then itself, and its membership label |
| Rendering.JoinAllComposes | internal/manifests/operator_placement.go:52-56 | composing a palette leaves the switched-on roles in palette order as native sidecars, with their membership labels |
| Rendering.JoiningComposes | internal/manifests/operator_placement.go:98-164 | each accepted part keeps native sidecars equal to the switched-on roles so far |
| SidecarContents.JoinAllBuilds | internal/manifests/operator_placement.go:98-164 | the init containers are the base's and then, for each switched-on part in palette order, one per initializer and one for the part, each scoped, with the content and ports of the accepted Pod, initializers without policy and the part always restarting |
| SidecarContents.JoinAllSucceeds | internal/manifests/operator_placement.go:98-164 | composing fails only where a part is refused |
| Rendering.ValidateSidecarComposition | internal/manifests/operator_placement.go:166-190 | accepts exactly the primary container alone with the expected natives, all restarting |
| Rendering.ValidateReservedColocatedPorts | internal/manifests/operator_placement.go:298-318 | accepts exactly when declared slots are used over TCP by their own containers only |
| Rendering.RestoredNatives | internal/manifests/labels.go:118-193 | restoring after a patch that kept the natives leaves exactly the captured natives |
| Rendering.CaptureWorkloadIdentity | internal/manifests/labels.go:88-116 | captures reserved labels, name, namespace, owners, selector, node pin and strategy, and managed containers of a dataplane only |
| Rendering.RestoreWorkloadIdentity | internal/manifests/labels.go:118-138 | puts back everything captured and keeps foreign labels and containers |
| SidecarContents.CapturedIsFilter | internal/manifests/labels.go:88-116 | captured are exactly the managed init containers, in their order |
| Rendering.IdentityIsBack | internal/manifests/labels.go:88-193 | after any patch that kept the composition, restoring gives back reserved labels, anchor and exactly the captured natives |
| Rendering.PatchAndRestore | internal/manifests/operator_placement.go:57-72 | succeeds exactly when the patches apply and keep the composition; the template is then the patched one with its identity back |
| Rendering.RenderDataplane | internal/manifests/operator_placement.go:43-96 | the result is the chain of composing, patching, restoring and finishing, refused only where a step is; for any patch a success delivers composition, wiring, free slots, well-formedness and identity |
| Rendering.SlotsAreExclusive | internal/manifests/operator_placement.go:298-318 | in a delivered dataplane a container using port 8080 or 8081 plus twice a declared sidecar's place over TCP is that sidecar's own |
| SidecarContents.UnpatchedRendering | internal/manifests/operator_placement.go:43-96 | with a patch that changes nothing, a rendered dataplane is the composed template, container by container |
| SidecarContents.PatchesChangeContentOnly | internal/manifests/operator_placement.go:43-96 | for any patch, a rendered dataplane has the captured containers with their patched content, and all other containers as patched but for ports |
| PlainPalette.PlainPaletteRenders | internal/manifests/operator_placement.go:43-96 | a palette of legal, plain parts over a plain dataplane renders, to the composed template |
| Rendering.RenderStandalone | internal/manifests/operator_placement.go:43-96 | for any patch a success has each listener of the role on one port of its container, a well-formed Pod and the identity it started with |
| Rendering.StandaloneListens | internal/manifests/listeners.go:86-144 | a rendered standalone role listens as gRPC on 8080 and HTTP on 8081 in the container that answers for its kind |
| ServiceSelectors.MembershipTellsRole | internal/manifests/operator_placement.go:19-25 | a membership label holds a role's full name exactly when the role is switched on |
| ServiceSelectors.RenderedOwner | internal/manifests/builder.go:365-383 | the labels name the installation, the role and, if pinned, the node |
| ServiceSelectors.PatchesDoNotReselect | internal/manifests/labels.go:118-138 | for any patch, the restored template is selected exactly by the Services that selected the rendered one |
| ServiceSelectors.ServiceSelectsItsRole | internal/manifests/service.go:119-153 | a Service selects a workload exactly when it has the box type and runs the role, told by kind and name |
| ServiceSelectors.ServiceReachesSidecar | internal/manifests/service.go:119-153 | a rendered dataplane is selected exactly for its switched-on sidecars, which are native sidecars in it, and each target port leads to the sidecar's slot |
| ServiceSelectors.ServiceReachesStandalone | internal/manifests/service.go:119-153 | a rendered operator, controlplane or bird adapter is selected exactly when box type and role agree, and each target port then leads to one port of its container |
| Hugepages.ValueIsExact | api/v1alpha1/yanetconfig_types.go:301-304 | the 64-bit value of a quantity equals it exactly for whole numbers in range |
| Hugepages.TotalQuantity | api/v1alpha1/yanetconfig_types.go:290-309 | accepts exactly positive whole sizes and counts whose product is an int64, and returns the product |
| Hugepages.FillPool | internal/manifests/builder.go:665-685 | the count fills the pool exactly and fits int32; an error means no count does |
| Hugepages.ResolveNodeHugepages | internal/manifests/builder.go:645-686 | explicit counts stay, otherwise the chosen pool is filled; errors exactly when impossible |
| Hugepages.FilledPoolIsReserved | internal/manifests/builder.go:107-111 | the later size check succeeds on a filled pool and gives all of it |
| Hugepages.BuildHugepages | internal/manifests/builder.go:86-111 | the three answers exactly: an explicit request is kept if its product is legal, else an error; a disabled automatic one reserves nothing; an enabled one reserves a chosen size that fills its pool if there is one, nothing exactly when nothing was requested and no pool is positive, else an error |
| SharedServices.PlanService | internal/controller/shared_services.go:116-134 | one plan updates agreed and ambiguous keys and fails exactly when its key is now ambiguous |
| SharedServices.PlanServices | internal/controller/shared_services.go:61-140 | desired are the agreed plans, blocked the ambiguous keys; the protected and live scopes are exact |
| SharedServices.OrderDoesNotChoose | internal/controller/shared_services.go:61-140 | listings of the same installations in any order give the same desired and blocked |
| SharedServices.FindUndrained | internal/controller/shared_services.go:257-272 | finds a producer of the box type exactly when one runs a role of the box the other way |
| SharedServices.BlockedScopes | internal/controller/shared_services.go:209-275 | the blocked scopes are exactly those whose read failed or that have undrained producers |
| SharedServices.WaitsExactly | internal/controller/shared_services.go:209-275 | in raw fields: a scope waits exactly when its box places roles and its producers are unknown or one of its box type runs a role the other way |
| SharedServices.WriteServices | internal/controller/shared_services.go:149-174 | each desired Service of an unblocked scope is attempted once, others never |
| SharedServices.PruneServices | internal/controller/shared_services.go:182-203 | deletes exactly the controlled, undesired, unambiguous Services of unprotected scopes |
| SharedServices.ReconcileSharedServices | internal/controller/shared_services.go:51-205 | writes exactly the agreed Services of scopes that need not wait and deletes exactly the prunable ones |
| ServiceOutcomes.WritesExactly | internal/controller/shared_services.go:61-174 | written is exactly what a live, resolving installation asks for and no other asks differently for, unless a live installation of its scope has to wait |
| ServiceOutcomes.PrunesOnly | internal/controller/shared_services.go:182-203 | a deleted Service is controlled and asked for by nobody, and in its scope every live installation resolves without failure, none waits and every undisputed write succeeded |
| ServiceOutcomes.PrunesUndisputed | internal/controller/shared_services.go:182-203 | conversely such a Service is deleted whenever nothing its scope asks for is disputed |
| SharedServices.LaterPlanProtects | internal/controller/shared_services.go:118-139 | of two differing plans the later protects its scope |
| SharedServices.ProtectionBounds | internal/controller/shared_services.go:73-139 | own faults and disputes always protect a scope; nothing but they or a dispute with others does |
| SharedServices.ListedFirst | internal/controller/shared_services.go:73-139 | listed first, a scope is protected exactly by its own faults and disputes |
| SharedServices.ListedLast | internal/controller/shared_services.go:73-139 | listed last, it is protected exactly by its faults and every dispute it takes part in |
| SharedServices.OrderDecidesProtection | internal/controller/shared_services.go:118-139 | two installations whose order decides which scope is protected |
| SharedServices.DepartedScopesAreNotGated | internal/controller/shared_services.go:66-72 | without a live installation, a scope's unplanned Services are prunable whatever still runs |
| SharedServices.DepartureGivesUpServices | internal/controller/shared_services.go:66-72 | a waiting scope keeps its unplanned Services while its installation lives and gives them up once it is being deleted |
| SharedServices.UndrainedDepartureLosesService | internal/controller/shared_services.go:66-72 | a scope with an undrained producer that loses its Service on departure |

## Left out

- Strategic merge patches, JSON encoding and API-server defaulting: arbitrary functions here.
- SHA-256: the short hash is a parameter with the properties the code relies on.
- Quantity and name syntax (DNS labels, port names, image references): admission checks without state.
- DeploymentSync.Reconciler.DesiredDeploymentUpdate: the stop check and a failing dry run are not modelled here, because StopSwitch models both.
- DeploymentSync.Reconciler.ApplyDeployment: stop checks, API failures and conflict retries are not modelled here, because StopSwitch models them.
- UpdateSpacing.UpdatesSpacedUnlessOnBoundary: API failures and conflict retries are not modelled, because a failed update changes nothing stored.
- PodPorts.CheckContainer: host ports, probes and name syntax are not modelled, because they only add easy conjuncts.
- PodPorts.ValidateComposedPod: host ports, volumes, probes, name syntax and the private network are not modelled, because they only add easy conjuncts.
- Rendering.CheckPart: the sidecar's own patches, the private network and volumes are not modelled; a part is what its patches left.
- Rendering.ComposeSidecar: volumes and resource field references are not modelled, because only containers and labels carry identity.
- Rendering.CaptureWorkloadIdentity: only the Pod's labels are kept; the Deployment's own labels are treated in the same way.
- Rendering.RestoreWorkloadIdentity: only the Pod's labels are kept; the Deployment's own labels are treated in the same way.
- Rendering.RenderDataplane: network attachments, runtime environment and volumes are not modelled, because no guarantee above rests on them.
- PlainPalette.PlainPaletteRenders: initializers, declared ports and patches that change something are not covered, because the contract of RenderDataplane says exactly when each step refuses them.
- Rendering.RenderStandalone: network attachments, runtime environment, volumes and NUMA fan-out are not modelled, because no guarantee above rests on them.
- SharedServices.WriteServices: the stop check before each write is modelled in StopSwitch, not again here.
- SharedServices.PruneServices: the stop check and a failed listing of Services are modelled in StopSwitch, not again here.
- SharedServices.ReconcileSharedServices: stop checks and a failed listing of Services are modelled in StopSwitch, not again here.
- StopSwitch.ReconcileYanet: branches are open choices, so it says when writes happen, not which.
- Handover.ExchangesTerminate: deletions under way are taken to finish one by one, because that is up to the cluster.
- Security contexts, tolerations and status conditions, events, metrics, logging, watches and mappers: plumbing.
- Informer cache lag and concurrent passes of one controller.
- BuildServices: Service names and their shortening; colliding names are what SharedServices treats as ambiguous keys.
