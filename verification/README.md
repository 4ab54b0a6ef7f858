# Verified model of the STACKIT Cluster API infrastructure provider

This project models the two reconcilers of the provider, `StackitCluster` and
`StackitMachine`, as step-by-step state machines over an abstract cloud, together
with the algorithms they rely on, and proves what holds over whole runs of them.

A run is any sequence of reconcile passes in which every cloud call may work, be
rejected with any error class, or take effect and still be reported as failed; in
which the finalizer patch and the final patch of each pass land or are lost; and in
which others delete resources out of band, users update specs past the webhook, and
deletion is requested at any time. `dafny verify dfyconfig.toml` checks everything.

## How it is built

| part | modules |
|---|---|
| the cloud: stores of tagged servers, networks, public IPs and security groups, group attachments, load balancers; what each client operation does for each outcome | `Api`, `CloudModel`, `CloudClient` |
| the two reconcilers: a pass as a function of stored object, cloud and everything it meets (`MachineModel`, `ClusterModel`), and the imperative code proved equal to it (`MachineReconciler`, `ClusterReconciler`) | `MachineModel`, `MachineReconciler`, `ClusterModel`, `ClusterReconciler`, `Conditions` |
| machine runs | `MachineRuns`, `MachineRelabel` |
| what a pass waits for, when it acts and what it says, told from the fields it observes | `MachineGates`, `ClusterGates` |
| cluster runs: readiness, networks, target pools, whose load balancers are deleted | `ClusterRuns`, `ClusterReadiness`, `ClusterNetwork`, `ClusterPool`, `ClusterBalancer` |
| the bastion over runs of both controllers | `BastionMaking`, `BastionStages`, `BastionCover`, `BastionSkip`, `BastionRuns`, `HiddenBastion`, `BastionRelabel` |
| teardown: one pass, one pass without failures, whole runs, stale records | `Removal`, `ClusterTeardown`, `CleanTeardown`, `TidyCloud`, `BastionUpkeep`, `NetworkCover`, `BalancerCover`, `TeardownRuns`, `StaleRecords`, `BlockedTeardown` |
| algorithms | `FirewallRules`, `TargetPool`, `Ordering`, `AddressPlan`, `Zones`, `Labels`, `Webhook` |
| what operations leave alone or keep well formed | `CloudFrames`, `CloudValidity`, `ClusterFrames`, `MachineFrames` |
| idempotence: a pass that ends ready is a fixed point; convergence: how many passes it takes | `SteadyState`, `MachineSteady`, `ClusterConverges` |
| concrete states in which conditional promises fail | `Witnesses` |

The specification functions of `CloudModel`, `MachineModel` and `ClusterModel` carry
no contracts of their own. The methods of `CloudClient.SDKClient`,
`MachineReconciler.Reconciler` and `ClusterReconciler.Reconciler` follow the control
flow of the code and are proved equal to them; the lemmas say what they mean.

## What is assumed about the cloud and the API server

- IDs are numbers, 0 stands for the empty string, and a resource ID is never handed
  out twice. A load balancer's ID is its name (`cloud/sdk_client.go:1075`).
- A listing that works sees every resource. Where a theorem needs it, a failing call
  does not claim "not found" (`Truthful`). What such a claim does is proved exactly for
  machine passes (`DuplicateIffListingsDenyIt`, `LeftBehindIff`) and for the deletion
  passes of a cluster (`TeardownCompleteIff`, `FinalizerGoneLeavesNothingIff`); the
  normal passes of a cluster in the run theorems are honest.
- The labels of a load balancer are any map that `loadBalancerLabels` can make of the
  cluster's tags; passes may differ in the order in which they iterate a map.
- A security group that is attached to a server cannot be deleted; deleting a server
  removes its attachments. Deletion takes effect at once.
- A patch lands whole or not at all, a pass reads the current object, and passes of
  the two controllers do not overlap.
- Labels stay fixed in the theorems about ownership by tags, because labels are part
  of the selectors. What a label change does is proved in `MachineRelabel` and
  `BastionRelabel`.

## Where the code does less than one would expect

Each point is a proved statement; where a promise fails, its exact condition is proved.

- A machine gets a second server from a safe state exactly when a server exists that
  is not recorded and both listings answer "not found" (`DuplicateIffListingsDenyIt`,
  `DuplicateServer`). A label change between a lost patch and the next pass does the
  same exactly when it does more than drop labels (`SecondServerIff`), and under the
  same condition a deletion pass leaves the server behind
  (`LeftBehindAfterRelabelIff`, `RelabelledServer`); the webhook freezes labels only
  once an instance is recorded.
- A machine's finalizer goes while its server stays exactly in the three cases of
  `LeftBehindIff` (`ServerLeftBehind`).
- Tag lookup runs only for an empty recorded ID. A bastion record comes to hide a real
  resource exactly when a pass replaces a resource of a recorded kind and then either
  EnsureBastion does not go through or the patch is lost (`BastionTurnsStaleIff`,
  `AddressHidden`, `ServerHidden`); the same for the network (`NetworkTurnsStaleIff`,
  `NetworkStale`). Teardown then leaks, or, exactly if the server was replaced and not
  the group with it, is blocked (`HiddenBlocksOrLeaks`), and it stays blocked over
  every run in which nobody else removes that server (`HiddenServerIsBlocked`,
  `BlockedForGood`).
- The condition reason `Skipped` is trusted as "already cleaned up". It turns untrue
  exactly in two ways: a pass makes the first resource of a bastion under it and loses
  its patch, or a disabled bastion is removed by a record that hides a real resource
  (`SkippedTurnsFalseIff`, `TrustsStaleIff`, `SkippedUntrue`). The second needs no lost patch
  (`HiddenThenSkippedIsUntrue`, `AddressHidden`). The bastion is then out of sight for
  as long as it stays disabled and the cluster is not deleted (`HiddenBastionStays`).
- A change of the cluster's labels that does more than drop some makes a second
  bastion; the first server, address and group stay and are neither recorded nor found
  by tags (`SecondBastionIff`).
- Removing node SSH access finds servers by the StackitCluster's name, while machine
  servers carry the owning Cluster's name: with different names it cannot succeed
  while such a server is attached (`SelectorOnMachineServer`, `NamesMustAgree`,
  `NamesDiffer`). It blocks teardown for exactly that long (`TeardownIsRestartable`).
- A load balancer's name does not contain the namespace, and a recorded name is deleted
  without a look at labels: another cluster's load balancer is deleted exactly when it
  has taken the recorded name (`DeletesForeignIff`, `ForeignBalancerDeleted`).
- The resource-role key is not reserved for machine labels, so a machine server can
  be taken for the bastion (`BastionSelectorOnMachine`, `MachineSelectorOnBastion`).
- Load balancer labels replace "/" by "."; user labels can collide with the
  provider's own keys, and then lookup depends on map order
  (`FoundAgainIffCoherent`, `ReservedKeyCanCollide`). For all such labels there are
  orders in which teardown leaves a load balancer whose name is not recorded, although
  every call works (`IncoherentTagsLeak`, `SomeTagsAreIncoherent`), and orders in which a
  live cluster does not get ready (`IncoherentTagsBlock`).
- A listing of load balancers that is refused with "Service not enabled" is read as
  "there is none" (`cloud/sdk_client.go:649-653`). The finalizer then goes while a load
  balancer whose name is not recorded stays (`UnseenBalancerLeaks`,
  `RefusedListingLeaks`). With honest answers this and an unseen label map are the only
  ways to leave something behind (`FinalizerGoneMeansAllGone`).
- A cluster whose calls all work is still never ready exactly when its own network is
  missing, another load balancer holds its name, no endpoint is given, its bastion is
  invalid, or a bastion that has to go is blocked by a server that clean-up does not
  recognize (`EveryRunConverges`).
- Cluster defaulting turns a valid root volume invalid exactly for an enabled bastion
  without one (`DefaultingAndVolumes`), and the bastion freeze is bypassed by
  disabling and enabling again (`BastionFreezeBypassed`).

## Model

| member | source | states |
|---|---|---|
| `MachineRuns.EveryRunIsSafe` | controller/stackitmachine_infrastructure.go:39-368 | over every run with honest listings, at most one server carries the machine's tags, it is covered by a persisted finalizer unless the Secret-gone exit was taken, a recorded instance ID names the only server, and Ready True implies status.ready |
| `MachineRuns.FreshIsSafe` | controller/stackitmachine_infrastructure.go:39-50 | a new object whose tags nothing carries is where such runs start |
| `MachineRuns.PassIsSafe` | controller/stackitmachine_controller.go:57-115 | one pass, with any failures and lost patches, keeps that invariant |
| `MachineRuns.ProvisionedOnce` | controller/stackitmachine_infrastructure.go:316-345 | once Provisioned is persisted it stays and the machine's servers only ever shrink, whatever the listings claim |
| `MachineRuns.DuplicateIffListingsDenyIt` | controller/stackitmachine_infrastructure.go:308-368 | a second server appears if and only if one exists, the pass reaches creation and both listings deny it |
| `MachineRuns.LeftBehindIff` | controller/stackitmachine_infrastructure.go:211-287 | the finalizer goes while a server stays if and only if the Secret is gone, an unrecorded server is denied by the listing, or the deletion of a live server is answered "not found" |
| `MachineRuns.CleanDeletionFinishes` | controller/stackitmachine_infrastructure.go:211-269 | from every safe state a deletion pass whose calls work removes the server, found by tags if its ID was lost, and the finalizer |
| `MachineRuns.CleanPassConverges` | controller/stackitmachine_infrastructure.go:39-184 | from every safe state of a machine never provisioned, a pass whose calls work ends with exactly one server, recorded |
| `MachineGates.ActsOnlyIf` | controller/stackitmachine_infrastructure.go:52-95 | a live machine's pass changes the cloud or ends ready only if the cluster is ready, each zone that was chosen is published or none is, bootstrap data is available and the client is built |
| `MachineGates.WaitsAndSaysWhy` | controller/stackitmachine_infrastructure.go:52-95 | otherwise the cloud and the record stay and the conditions say which of these is missing; an unpublished zone is InvalidFailureDomain in InstanceReady and Ready |
| `MachineGates.NewServerIsPlaced` | controller/stackitmachine_infrastructure.go:186-209 | whatever zones the cloud listed and whatever was chosen, a server that a pass makes is asked for in a published zone, never in one that ends in "-m" |
| `MachineGates.PassDecides` | controller/stackitmachine_infrastructure.go:97-184 | once it may act and its calls work, a pass ends ready if and only if a server is there or a first one may be made, it is up, and node SSH access is possible; else the exact reason, and the server is recorded as soon as there is one |
| `MachineGates.PausedOnlySaysSo` | controller/stackitmachine_controller.go:105-109 | a paused pass, deletion or not, changes nothing but the Paused condition |
| `MachineGates.DeletionWaitsForClient` | controller/stackitmachine_infrastructure.go:211-242 | a deletion pass whose client cannot be built keeps server, record and finalizer |
| `MachineGates.DeletionTouchesOnly` | controller/stackitmachine_infrastructure.go:211-269 | a deletion pass changes of the object only Paused, the credentials condition, the recorded instance and the finalizer |
| `MachineGates.DeletionClearsRecord` | controller/stackitmachine_infrastructure.go:244-264 | with a client, the finalizer goes only with the recorded instance |
| `MachineGates.FailedLookupIsAnError` | controller/stackitmachine_infrastructure.go:308-332 | a lookup that fails with anything but "not found" is InstanceError: no server is made and the record stays |
| `MachineGates.NodeAccessIff` | controller/stackitmachine_infrastructure.go:370-392 | node SSH access succeeds, whatever its calls answer, exactly when the bastion's group is known, the node-SSH group is found or made, its rule is there and the attachment went through or was there |
| `MachineRuns.EnsureServerEffect` | controller/stackitmachine_infrastructure.go:308-368 | the tagged servers grow by exactly one new server when both lookups say "not found" and nothing was provisioned, and otherwise stay the same |
| `MachineRuns.NormalServers` | controller/stackitmachine_infrastructure.go:39-184 | a normal pass touches the machine's servers only by that step and records only a server that carries its tags or was recorded |
| `MachineRuns.NormalObject` | scope/machine_scope.go:77-112 | a normal pass keeps lifecycle fields, never takes back Provisioned, and never lets Ready True outrun status.ready |
| `MachineRuns.DeleteServers` | controller/stackitmachine_infrastructure.go:244-287 | a deletion pass removes the resolved server and no other server |
| `MachineRuns.DeleteObject` | controller/stackitmachine_infrastructure.go:211-269 | the finalizer is removed if and only if the Secret is gone, no server resolves, or its deletion counts as done |
| `MachineRelabel.StillFoundIff` | util/tags.go:55-73 | a server is found by the changed labels if and only if the change only drops labels |
| `MachineRelabel.SecondServerIff` | webhook/v1alpha1/validation_helpers.go:252-254 | after a label change admitted before the instance is recorded, the next pass makes a second server for the same UID if and only if it reaches creation and the change did more than drop labels |
| `MachineRelabel.LeftBehindAfterRelabelIff` | controller/stackitmachine_infrastructure.go:244-287 | after such a label change a deletion pass whose calls work removes the finalizer, and leaves the server if and only if the change did more than drop labels |
| `MachineReconciler.Reconciler.EnsureServerExists` | controller/stackitmachine_infrastructure.go:308-368 | equals the model: recorded server, else tagged, else a new one unless provisioned before, with its error cases |
| `MachineReconciler.Reconciler.ReconcileBastionNodeSSHAccess` | controller/stackitmachine_infrastructure.go:370-392 | equals the model: nothing without a bastion, an error until the bastion group is known, else the access call |
| `MachineReconciler.Reconciler.ReconcileNormal` | controller/stackitmachine_infrastructure.go:39-184 | equals the model of a normal pass for every observation and call outcome; until cluster, zones, bootstrap data and credentials allow it, it touches nothing in the cloud and says why |
| `MachineReconciler.Reconciler.ReconcileDelete` | controller/stackitmachine_infrastructure.go:211-287 | equals the model of a deletion pass, Secret-gone exit included |
| `MachineReconciler.Reconciler.Run` | controller/stackitmachine_controller.go:57-115 | equals the model of a whole pass: pause, dispatch, finalizer patch and deferred patch, landing or lost |
| `ClusterReadiness.EveryRunAgrees` | controller/stackitcluster_infrastructure.go:41-272 | in every state of every run (nothing assumed of calls, patches, updates or others) a cluster not being deleted has status.ready exactly when Ready is True, and then Credentials, Network and Bastion are True and LoadBalancer is True or False with a target or machine-list error |
| `ClusterReadiness.FreshIsReadyOK` | controller/stackitcluster_infrastructure.go:41-53 | a new object meets it |
| `ClusterReadiness.PassKeepsReadyOK` | scope/cluster_scope.go:73-82 | one pass keeps that agreement |
| `ClusterReadiness.NormalKeeps` | controller/stackitcluster_infrastructure.go:41-272 | so does every exit of a normal pass |
| `ClusterGates.FinalizerWaitsForMachines` | controller/stackitcluster_infrastructure.go:475-515 | a pass takes the finalizer away only if it listed the Machines and found none, credentials Secret gone or not |
| `ClusterGates.MachinesHoldTeardown` | controller/stackitcluster_infrastructure.go:477-490 | while a Machine is left or the listing fails, a deletion pass changes neither cloud nor record nor finalizer |
| `ClusterGates.FinalizerOutlivesMachines` | controller/stackitcluster_infrastructure.go:475-490 | over every run, nothing assumed: if the finalizer is gone, some deletion pass saw no Machine |
| `ClusterGates.AbandonedIff` | controller/stackitcluster_infrastructure.go:496-509 | a cluster is given up with all it has in the cloud exactly when its finalizer goes because the credentials Secret is gone |
| `ClusterGates.DroppedIsForgotten` | controller/stackitcluster_infrastructure.go:531-596 | what a clean-up step got through with is no longer recorded |
| `ClusterGates.ChangedCloudInitRecreates` | controller/stackitcluster_bastion.go:104-123 | a pass that comes to a recorded bastion of another cloud-init makes nothing and does not end ready; the record is empty with reason Recreating if the removal went through, and else kept |
| `ClusterGates.SameCloudInitKeeps` | controller/stackitcluster_bastion.go:125-130 | otherwise it takes nothing away, and what it records bears the cloud-init it saw |
| `ClusterGates.RecordedHashIsFixed` | controller/stackitcluster_bastion.go:191-195 | over every run, nothing assumed: while a bastion is recorded its cloud-init hash never changes |
| `ClusterGates.StageEnsures` | controller/stackitcluster_bastion.go:125-163 | an ensured bastion is recorded, and the stage goes on once it is up and has an address; each other exit with its reason |
| `ClusterGates.WithoutBastionInputs` | controller/stackitcluster_bastion.go:78-102 | an invalid spec or a missing cloud-init leaves the bastion alone and says which |
| `ClusterGates.WithoutClientOrZones` | controller/stackitcluster_infrastructure.go:54-90 | without a client or a zone listing nothing in the cloud changes, the region's own three zones are published, and the reason tells which |
| `ClusterGates.WithoutNetwork` | controller/stackitcluster_infrastructure.go:346-469 | a network that is missing, or a lookup that fails, leaves everything alone, with the reason of each case |
| `ClusterGates.WithoutEndpointOrMachines` | controller/stackitcluster_infrastructure.go:227-244 | without a load balancer the endpoint must be given, with one the Machines must be listed |
| `ClusterGates.BalancerIsTold` | controller/stackitcluster_infrastructure.go:134-225 | the load balancer's name is recorded as soon as it is found or made, its address published as soon as it has one, even if the targets then fail; each exit with its reason |
| `ClusterGates.PausedOnlySaysSo` | controller/stackitcluster_controller.go:95-99 | a paused pass, deletion or not, changes nothing but the Paused condition |
| `ClusterGates.DeletionWaitsForClient` | controller/stackitcluster_infrastructure.go:495-521 | a deletion pass whose client cannot be built keeps everything |
| `ClusterGates.NetworkInUseStops` | controller/stackitcluster_infrastructure.go:571-585 | a network still in use stops the clean-up with reason NetworkInUse |
| `ClusterNetwork.EveryRunDeletesOwnOnly` | controller/stackitcluster_infrastructure.go:346-469 | over every run, label updates included, no pass deletes a network given in the spec and every network a pass deletes carries this cluster's tags |
| `ClusterNetwork.FreshIsOwnRecord` | controller/stackitcluster_infrastructure.go:41-53 | a new object meets the invariant of those runs |
| `ClusterNetwork.PassDeletesOwnOnly` | cloud/services/network/network.go:42-64 | one pass keeps the record the cluster's own and deletes nothing else |
| `ClusterNetwork.NormalNetworks` | controller/stackitcluster_infrastructure.go:92-101 | a normal pass changes networks exactly by the network calls, if it reaches them, and records what they found |
| `ClusterNetwork.DeletionNetworks` | controller/stackitcluster_infrastructure.go:563-597 | a deletion pass removes no network but the resolved one |
| `ClusterNetwork.CallNetworkOwn` | controller/stackitcluster_infrastructure.go:397-469 | ensuring a managed network keeps all others and ends with the recorded one or one of this cluster |
| `ClusterPool.EveryRunKeepsPools` | controller/stackitcluster_infrastructure.go:103-212 | in every run every pool is non-empty with distinct addresses, and the next pass leaves each existing pool or replaces it by the desired, non-empty targets |
| `ClusterPool.PassPools` | cloud/sdk_client.go:577-632 | one pass keeps pools usable and never puts the placeholder into an existing one |
| `ClusterPool.ServedPoolIsDesired` | controller/stackitcluster_infrastructure.go:185-212 | a whole pass that gets beyond the target update with a desired target leaves exactly the desired multiset on port 6443 in a load balancer: the first internal addresses of the cluster's control-plane machines that are not being deleted, and no others; it records that load balancer if its patch lands |
| `ClusterPool.NewPoolIsSeeded` | controller/stackitcluster_infrastructure.go:127-148 | a load balancer that a pass makes has the cluster's name and labels and starts with those addresses or, without any, with one placeholder at the tenth address of the first IPv4 prefix that has one, else 10.0.0.1 |
| `ClusterPool.SecondUpdateIsFree` | cloud/sdk_client.go:667-711 | a successful update leaves pool and port as requested, writes only if they differed, and a repeat never writes |
| `ClusterPool.UpdateSucceedsIff` | cloud/sdk_client.go:667-711 | the update succeeds exactly for a name, a port and at least one target, all named and addressed, and a load balancer that has them or takes them |
| `ClusterPool.BalancerMadeIff` | cloud/sdk_client.go:577-632 | a load balancer is made exactly when none is found or the service is not enabled, the name is free and the creation is not rejected; else nothing changes |
| `ClusterPool.NewPoolIsNotEmpty` | cloud/sdk_client.go:598-632 | a new load balancer never starts with an empty pool, whatever targets it is given |
| `ClusterBalancer.EveryRunDeletesOwnBalancer` | controller/stackitcluster_infrastructure.go:522-541 | over every run in which nobody gives a load balancer of other labels the recorded name, in whatever order label maps are made, no pass deletes a load balancer without this cluster's labels |
| `ClusterBalancer.DeletesForeignIff` | cloud/services/loadbalancer/loadbalancer.go:117-137 | a pass deletes a load balancer of other labels if and only if it is a deletion pass that gets there, the recorded name is that load balancer's, and the deletion takes effect |
| `BastionRuns.SkippedMeansAbsent` | controller/stackitcluster_bastion.go:54-76 | over every run of both controllers whose passes are orderly, a persisted reason Skipped means an empty bastion status and no bastion server, address, group or node-SSH group, and recorded IDs always cover what is tagged |
| `BastionRuns.PassKeepsSkippedIff` | controller/stackitcluster_bastion.go:39-164 | an honest pass keeps this if and only if it is orderly: it neither hides a replaced resource nor loses the patch for a first one under Skipped |
| `BastionRuns.AtomicCallsAreOrderly` | cloud/sdk_client.go:319-395 | every honest pass whose patch lands and whose EnsureBastion changes nothing when it fails is orderly |
| `BastionRuns.MachineKeepsSkip` | controller/stackitmachine_infrastructure.go:370-392 | a machine pass that reads the persisted cluster makes no node-SSH group under Skipped |
| `BastionRuns.EveryRunCovers` | controller/stackitcluster_bastion.go:104-130 | over every run, lost patches included, whose passes hide no replaced resource, each recorded bastion ID is empty or names all that is tagged |
| `BastionRuns.NoBastionOutlivesItsCluster` | controller/stackitcluster_infrastructure.go:542-562 | after any such run a clean-up that gets through leaves nothing of the bastion |
| `BastionCover.BastionTurnsStaleIff` | controller/stackitcluster_bastion.go:125-130 | from records that cover, a pass leaves a bastion record that hides a real resource if and only if it comes to EnsureBastion, makes a resource of a recorded kind, and EnsureBastion does not go through or the patch is lost |
| `BastionCover.PassCovers` | controller/stackitcluster_bastion.go:39-164 | any other pass, whatever fails in it, keeps the records covering |
| `BastionMaking.EnsureEffect` | cloud/sdk_client.go:319-395 | exactly which of group, server and address EnsureBastion makes, and exactly when it reports success, for every cloud and all call outcomes |
| `BastionMaking.StillCoversIff` | cloud/sdk_client.go:319-395 | a record that covered still covers after EnsureBastion if and only if nothing of a recorded kind was made |
| `BastionMaking.LeavesSomethingIff` | cloud/sdk_client.go:319-395 | starting from nothing, EnsureBastion leaves a resource if and only if its group is created |
| `BastionSkip.SkippedTurnsFalseIff` | controller/stackitcluster_bastion.go:54-75 | from any state in which Skipped is true or not said, a pass makes a persisted Skipped untrue if and only if it makes the first resource of a bastion under it and loses its patch, or removes a disabled bastion by a record that hides a real resource |
| `BastionSkip.StageMakesSkipFalseIff` | controller/stackitcluster_bastion.go:54-75 | the disable branch ends with an untrue Skipped if and only if its removal goes through by such a record |
| `BastionSkip.TrustsStaleIff` | controller/stackitcluster_bastion.go:54-75 | with working removal calls that second way is taken if and only if the pass reaches a disabled bastion not known to be absent, its patch lands, the record hides a resource, and nothing blocks the removal: one node-SSH group at most, its servers recognized, the bastion's group free |
| `HiddenBastion.HiddenBastionStays` | controller/stackitcluster_bastion.go:54-75 | over every run with the bastion disabled, Skipped persisted and no deletion, all that carries the bastion's tags stays as it was |
| `BastionRelabel.SecondBastionIff` | webhook/v1alpha1/validation_helpers.go:104-138 | after an admitted label change a working pass keeps the recorded bastion if and only if the change only dropped labels; otherwise it records a second one, and the first server, address and group stay and are not found again |
| `BastionRelabel.BastionStillFoundIff` | util/tags.go:37-53 | a bastion is found by changed labels if and only if the change only drops labels |
| `SteadyState.ReadyIsFixedPoint` | controller/stackitcluster_infrastructure.go:41-272 | a cluster pass that ends ready, repeated with the same observations and working calls, changes neither the object nor the cloud |
| `SteadyState.EndsSettled` | controller/stackitcluster_infrastructure.go:54-272 | what a pass that ends ready has established about status, network, load balancer, targets and bastion |
| `ClusterConverges.EveryRunConverges` | controller/stackitcluster_infrastructure.go:41-272 | from every state any run reaches, after two or more passes whose calls work, with one cloud-init and one label map, a live cluster is ready if and only if nothing was in the way: its own network is there, its load balancer is found or the name is free, its endpoint is given, its bastion is valid and can go if it must |
| `ClusterConverges.WorkingPassesDecide` | controller/stackitcluster_infrastructure.go:41-272 | the same for any number of such passes in a row; the first alone suffices if and only if no bastion is to be made anew |
| `ClusterConverges.PassDecides` | controller/stackitcluster_infrastructure.go:41-272 | one such pass ends ready if and only if nothing is in the way and no bastion is to be made anew; it neither clears nor causes an obstacle, and leaves no bastion to be made anew |
| `ClusterConverges.BastionGoesIff` | controller/stackitcluster_bastion.go:39-164 | the same for the bastion stage: disabled, recreated and ensured |
| `ClusterConverges.BalancerGoesIff` | controller/stackitcluster_infrastructure.go:103-244 | the load balancer stage goes on if and only if a matching load balancer is there or the name is free, or an endpoint was given without one |
| `ClusterConverges.RemovalGoesIff` | controller/stackitcluster_bastion.go:60-65 | in a reachable state removing the bastion gets through if and only if every server using a node-SSH group is recognized, and one that is not blocks the next attempt too |
| `ClusterConverges.DesiredIsGood` | cloud/sdk_client.go:667-684 | the desired targets of named machines pass the input checks of the target update |
| `ClusterConverges.WhenAttainable` | controller/stackitcluster_infrastructure.go:41-272 | nothing is in the way when tags do not collide, nobody else has the load balancer's name, own network and endpoint are there, the bastion is valid, and the names agree or the machines' servers are gone |
| `SteadyState.EnsuredAgain` | cloud/sdk_client.go:319-395 | EnsureBastion on a complete bastion changes nothing and reports the same IDs |
| `MachineSteady.ReadyIsFixedPoint` | controller/stackitmachine_infrastructure.go:39-184 | a machine pass that ends with Ready True, repeated with the same observations and working calls, changes neither the object nor the cloud |
| `TeardownRuns.TeardownIsRestartable` | controller/stackitcluster_infrastructure.go:471-601 | from every state any run of both controllers reaches, first creations with a lost patch included, a deletion pass in which no call fails and no Machine remains removes the finalizer if and only if every server still using a node-SSH group matches its clean-up selector (it does when the names agree or the machines' servers are gone), and then leaves nothing if and only if an unrecorded load balancer is seen |
| `TeardownRuns.FinalizerGoneLeavesNothingIff` | controller/stackitcluster_infrastructure.go:522-600 | over every run, a pass that removes the finalizer with credentials, whatever its own calls answer, leaves no load balancer, bastion server, address or group, node-SSH group or managed network if and only if no lookup or deletion of it denies one that is there |
| `TeardownRuns.FinalizerGoneMeansAllGone` | controller/stackitcluster_infrastructure.go:522-600 | with honest answers: if and only if there is no load balancer of the cluster, or its name is recorded, or the lookup is not refused and sees it |
| `TeardownRuns.BalancerSeenIff` | cloud/sdk_client.go:641-665 | for tags whose keys do not collide: unless the name is not recorded and the listing is refused with "Service not enabled" |
| `TeardownRuns.UnseenBalancerLeaks` | cloud/sdk_client.go:649-653 | from every reachable state, a load balancer that is neither recorded nor seen outlives the finalizer although no call fails |
| `TeardownRuns.EveryRunStaysWhole` | controller/stackitcluster_controller.go:66-106 | the invariant behind both, over every run: one tagged resource per kind, groups used only by bastion and machines, records that cover |
| `TeardownRuns.PassKeepsWholeIff` | controller/stackitcluster_controller.go:66-106 | an honest pass keeps it if and only if it hides neither a replaced bastion resource nor a replaced network |
| `TeardownRuns.WhenDetachable` | cloud/sdk_client.go:1138-1150 | clean-up recognizes every attached server when StackitCluster and Cluster share their name, and has none to recognize once the machines' servers are gone |
| `TeardownRuns.FreshIsWhole` | controller/stackitcluster_infrastructure.go:41-53 | a new object in a cloud without its tags is where such runs start |
| `ClusterTeardown.TeardownCompleteIff` | controller/stackitcluster_infrastructure.go:522-600 | a clean-up that reaches the end, whatever its calls answered, leaves nothing of the cluster if and only if each recorded ID is empty or names all that is tagged and no lookup or deletion denies something that is there |
| `ClusterTeardown.RemovedBastionIff` | controller/stackitcluster_infrastructure.go:542-558 | when both removals succeed: exactly when no node-SSH group is left, and no bastion resource is left if and only if the recorded IDs cover and no answer denies one |
| `ClusterTeardown.DroppedNetworkIff` | cloud/services/network/network.go:42-64 | a network clean-up that gets through leaves no tagged network if and only if the record covers and no answer denies it, or none is tagged for a user's own network |
| `ClusterTeardown.DroppedBalancerIff` | cloud/services/loadbalancer/loadbalancer.go:117-137 | a load balancer clean-up that gets through leaves none of the cluster's if and only if a recorded name covers, the lookup for an unrecorded one is not refused and sees it, and the deletion does not claim "not found" |
| `ClusterTeardown.CoherentSeesOwn` | cloud/sdk_client.go:1152-1167 | a lookup sees only the cluster's own load balancers, and all of them when the tags' keys do not collide |
| `CleanTeardown.CleanTeardownFinishesIff` | controller/stackitcluster_infrastructure.go:471-601 | a deletion pass whose calls work, a load balancer service that is not enabled included, reaches the end if and only if the state is unblocked, whichever resources or IDs are already gone |
| `CleanTeardown.NodeSSHRemovedIff` | cloud/sdk_client.go:501-535 | with every call working, removing node SSH access succeeds if and only if at most one group is tagged and each attached server matches the selector |
| `CleanTeardown.DetachAllWorks` | cloud/sdk_client.go:513-522 | detaching removes exactly the attachments of listed, matching servers to that group |
| `CleanTeardown.DetachAllOkIff` | cloud/sdk_client.go:513-522 | the loop gets through exactly when each matching listed server is detached or was: not found and conflict count as done |
| `CleanTeardown.DismantleOrder` | cloud/sdk_client.go:427-475 | nothing is deleted before the address is unassigned and the group detached, and success means that every step counts as done |
| `CleanTeardown.EmptySelectorRefused` | cloud/sdk_client.go:112-145 | tags that name nothing, a missing network, server or group are refused and nothing changes |
| `CleanTeardown.NoClusterNoDetach` | cloud/sdk_client.go:501-535 | tags that name no cluster detach nothing |
| `CleanTeardown.SelectorOnMachineServer` | cloud/sdk_client.go:1138-1150 | the selector matches a machine server if and only if the StackitCluster and the Cluster have the same name and namespace |
| `CleanTeardown.NamesMustAgree` | cloud/services/bastion/bastion.go:49-53 | with different names the removal fails, whatever the calls do right, while a machine server is attached |
| `CleanTeardown.BastionRemovedIff` | cloud/sdk_client.go:397-475 | with every call working, DeleteBastion succeeds if and only if each resource is recorded or uniquely tagged and the group is used by no other server |
| `Removal.DeletedBastionGoneIff` | cloud/sdk_client.go:397-475 | whenever DeleteBastion succeeds, no tagged resource is left if and only if the recorded IDs cover and no lookup or deletion denies one |
| `Removal.DeleteBastionShrinks` | cloud/sdk_client.go:397-475 | wherever it stops, it only takes away |
| `Removal.DeleteNodeSSHItems` | cloud/sdk_client.go:501-535 | at most the one tagged group goes, and when the call counts as done none is left if and only if no answer denies one |
| `Removal.ResolvedClearsIff` | cloud/sdk_client.go:397-426 | deleting the resolved ID leaves nothing tagged if and only if the record covers and neither lookup nor deletion denies it |
| `Removal.FoundIsTheOne` | cloud/sdk_client.go:112-124 | a lookup that succeeds found the only match, and an honest "not found" means none |
| `NetworkCover.NetworkTurnsStaleIff` | controller/stackitcluster_infrastructure.go:397-469 | a pass makes the network record hide the real network if and only if it replaces a recorded network that is gone and the creation is reported failed or the patch is lost; any other pass keeps it sound |
| `NetworkCover.CallNetworkAdds` | controller/stackitcluster_infrastructure.go:397-469 | the network calls add a network if and only if lookup by ID and by tags find none and the creation is not rejected, and otherwise change nothing |
| `StaleRecords.StaleRecordLeaks` | cloud/services/network/network.go:52-54 | a teardown that finishes with a stale network or bastion record leaves something behind, whatever its calls answer |
| `StaleRecords.HiddenBlocksOrLeaks` | cloud/sdk_client.go:397-475 | from every reachable state, after a pass that hides a replaced bastion resource, a deletion pass whose calls all work fails to remove the finalizer if and only if a recorded server was replaced and no recorded group with it, and otherwise leaks |
| `StaleRecords.HiddenThenSkippedIsUntrue` | controller/stackitcluster_bastion.go:54-75 | disabling the bastion after such a pass persists an untrue Skipped if and only if the removal is not blocked |
| `BlockedTeardown.HiddenServerIsBlocked` | cloud/sdk_client.go:428-475 | a hidden replaced server holds the group that teardown must delete |
| `BlockedTeardown.BlockedForGood` | controller/stackitcluster_infrastructure.go:548-558 | over every run from there, however often deletion is tried, the finalizer stays as long as others leave that server alone and the credentials exist |
| `TidyCloud.EnsureBastionTidy` | cloud/sdk_client.go:319-395 | wherever EnsureBastion stops, each kind stays unique and the bastion group is used by the bastion only |
| `TidyCloud.EnsureNodeSSHTidy` | cloud/sdk_client.go:477-499 | so does EnsureNodeSSHAccess, and node-SSH groups stay with the machines of the Cluster |
| `BastionUpkeep.PassHeld` | controller/stackitcluster_bastion.go:39-164 | every cluster pass keeps the cloud tidy, recorded IDs ones that were handed out, and a recorded group the cluster's own |
| `BastionUpkeep.MachinePassTidy` | controller/stackitmachine_infrastructure.go:39-287 | every machine pass keeps the cloud tidy and reuses no group ID |
| `BastionUpkeep.SettledIsNode` | controller/stackitmachine_infrastructure.go:308-368 | the server a machine pass settles on is a machine server of the owning Cluster |
| `BastionUpkeep.MachineTagsAreNode` | util/tags.go:55-73 | the tags of every machine of the Cluster mark such a server |
| `BalancerCover.PassBalancerSound` | cloud/sdk_client.go:577-632 | one pass, patch lost or not and in any map order, keeps the cluster's own and the recorded load balancer the one of the cluster's name |
| `CloudValidity.FindOrCreateUnique` | cloud/sdk_client.go:147-204 | with an honest lookup, find-or-create ends with exactly the resource it returns and never makes a second one, also when it fails half-way |
| `CloudValidity.EnsuredBastionIsTheOne` | cloud/sdk_client.go:319-395 | an EnsureBastion that succeeds reports the only tagged server, address and group |
| `MachineFrames.MachinePassFrame` | controller/stackitmachine_infrastructure.go:39-392 | a machine pass never touches networks, addresses or load balancers, nor groups without a bastion group |
| `CloudClient.SDKClient.FindByTags` | cloud/sdk_client.go:112-145 | a scan of the listing: none is NotFound, several are Conflict, else the one that matches |
| `CloudClient.SDKClient.EnsureByTags` | cloud/sdk_client.go:147-204 | equals the model of find-or-create, which networks, groups and public IPs share |
| `CloudClient.SDKClient.CreateServerInGroup` | cloud/sdk_client.go:147-204 | a server created with a security group starts out attached to it |
| `CloudClient.SDKClient.EnsureBastionHost` | cloud/sdk_client.go:319-395 | equals the model: group, rules, server, attachment, address and assignment in this order, each error ending it |
| `CloudClient.SDKClient.DeleteBastionHost` | cloud/sdk_client.go:397-475 | equals the model: resolve the three IDs by record or tags, then dismantle |
| `CloudClient.SDKClient.Dismantle` | cloud/sdk_client.go:427-475 | equals the model: unassign, detach, server, address, rules, group, with the tolerated errors of each |
| `CloudClient.SDKClient.EnsureNodeSSHAccess` | cloud/sdk_client.go:477-499 | equals the model of group, rule and attachment |
| `CloudClient.SDKClient.DeleteNodeSSHAccess` | cloud/sdk_client.go:501-535 | equals the model, by a loop over the listing |
| `CloudClient.SDKClient.AddSecurityGroupToServer` | cloud/sdk_client.go:932-942 | attaches, and counts conflict, bad request and not found as done |
| `CloudClient.SDKClient.DropSecurityGroup` | cloud/sdk_client.go:944-968 | clears rules, then deletes the group, a missing one counting as done |
| `CloudClient.SDKClient.EnsureAPIServerLoadBalancer` | cloud/sdk_client.go:577-632 | equals the model: the matching load balancer, else a new one with a never-empty pool |
| `CloudClient.SDKClient.FindLoadBalancerByTags` | cloud/sdk_client.go:733-745 | none, several or the one; a service that is not enabled has none |
| `CloudClient.SDKClient.SetAPIServerLoadBalancerTargets` | cloud/sdk_client.go:667-711 | equals the model: input checks, then a write only if port or multiset of targets differ |
| `CloudClient.SDKClient.DeleteAPIServerLoadBalancer` | cloud/sdk_client.go:634-639 | equals the model of the deletion |
| `CloudClient.SDKClient.ResolveLoadBalancerID` | cloud/services/loadbalancer/loadbalancer.go:117-137 | the recorded name, else the one that matches, else none |
| `ClusterReconciler.Reconciler.EnsureNetwork` | controller/stackitcluster_infrastructure.go:346-355 | equals the model of both branches |
| `ClusterReconciler.Reconciler.GetUnmanagedNetwork` | controller/stackitcluster_infrastructure.go:357-395 | equals the model for a network given in the spec |
| `ClusterReconciler.Reconciler.EnsureManagedNetwork` | controller/stackitcluster_infrastructure.go:397-469 | equals the model: recorded network, else find or create |
| `ClusterReconciler.Reconciler.BuildClientAndZones` | controller/stackitcluster_infrastructure.go:54-90 | equals the model of credentials and failure domains |
| `ClusterReconciler.Reconciler.ReconcileLoadBalancer` | controller/stackitcluster_infrastructure.go:103-244 | equals the model of the load balancer stage, external endpoint included |
| `ClusterReconciler.Reconciler.ReconcileTargets` | controller/stackitcluster_infrastructure.go:159-225 | equals the model of publishing the endpoint and updating targets |
| `ClusterReconciler.Reconciler.BuildTargets` | controller/stackitcluster_infrastructure.go:107-125 | the targets are exactly the first internal addresses of the cluster's control-plane machines that are not being deleted, each under the least name that reports it |
| `ClusterReconciler.Reconciler.ReconcileBastion` | controller/stackitcluster_bastion.go:39-164 | equals the model of the bastion stage |
| `ClusterReconciler.Reconciler.RemoveBastionResources` | controller/stackitcluster_bastion.go:60-65 | node SSH access first, then the bastion, with the errors each caller tolerates |
| `ClusterReconciler.Reconciler.EnsureOrRecreateBastion` | controller/stackitcluster_bastion.go:104-163 | equals the model of recreate and ensure; a recorded bastion of another cloud-init is cleared or kept and the cluster is not ready |
| `ClusterReconciler.Reconciler.ReconcileNormal` | controller/stackitcluster_infrastructure.go:54-272 | equals the model of a normal pass |
| `ClusterReconciler.Reconciler.DeleteLoadBalancer` | controller/stackitcluster_infrastructure.go:522-541 | equals the model of the load balancer clean-up |
| `ClusterReconciler.Reconciler.DeleteManagedNetwork` | controller/stackitcluster_infrastructure.go:563-597 | equals the model of the network clean-up, NetworkInUse included |
| `ClusterReconciler.Reconciler.ReconcileDelete` | controller/stackitcluster_infrastructure.go:471-601 | equals the model of a deletion pass; nothing happens while a Machine is left or the listing fails |
| `ClusterReconciler.Reconciler.Run` | controller/stackitcluster_controller.go:66-106 | equals the model of a whole pass: pause, dispatch, finalizer patch and deferred patch, landing or lost |
| `Conditions.SetConditions` | util/conditions.go:66-87 | every listed type has the status and reason afterwards, and every other type is as before |
| `FirewallRules.SecurityGroup.EnsureRules` | cloud/sdk_client.go:783-844 | at every point the SSH CIDRs lie between old∩desired and old∪desired; only ingress TCP/22 rules of unwanted CIDRs go; no CIDR is created twice or anew; success gives each wanted CIDR such a rule and reaches exactly the desired set plus rules without an ID; a matching group is left alone |
| `FirewallRules.SecurityGroup.CreateMissing` | cloud/sdk_client.go:792-819 | the first loop only appends wanted rules the snapshot lacks, each once, and success covers all |
| `FirewallRules.SecurityGroup.RevokeUndesired` | cloud/sdk_client.go:821-843 | the second loop removes only unwanted SSH rules of the snapshot, and success all that have an ID |
| `FirewallRules.SecurityGroup.HasSSHRule` | cloud/sdk_client.go:970-979 | true if and only if some ingress TCP/22 rule allows the CIDR |
| `TargetPool.SameTargets` | cloud/sdk_client.go:713-720 | true if and only if the two lists are equal as multisets of name and IP |
| `TargetPool.SortedTargetKeys` | cloud/sdk_client.go:722-731 | a sorted permutation of the targets |
| `TargetPool.APIServerTargets` | cloud/services/loadbalancer/loadbalancer.go:70-97 | one target per distinct internal IP of a non-nil machine, held by the least-named machine reporting it, ordered by name; the desired pool for uniquely named machines |
| `TargetPool.PoolMembers` | cloud/services/loadbalancer/loadbalancer.go:70-97 | the desired pool has those owners |
| `TargetPool.DesiredFrontsControlPlane` | controller/stackitcluster_infrastructure.go:107-125 | an address is in the desired pool if and only if a machine with the cluster's name, the control-plane label and no deletion time reports it first among its internal addresses; its name is the least such machine's |
| `TargetPool.PoolIndependentOfOrder` | cloud/services/loadbalancer/loadbalancer.go:70-97 | for uniquely named machines the owners do not depend on input order |
| `TargetPool.FirstInternalIPMeaning` | cloud/services/loadbalancer/loadbalancer.go:139-146 | the first non-empty internal address, and empty exactly when there is none |
| `TargetPool.DroppedEventKeepsPool` | controller/stackitcluster_controller.go:146-155 | replacing a machine by an update that the watch filter drops leaves the desired pool identical |
| `TargetPool.StatusUpdatesDropped` | controller/stackitcluster_controller.go:146-155 | an update that touches neither labels nor addresses and neither starts nor ends a deletion is dropped |
| `TargetPool.TargetNameIsLabel` | cloud/services/loadbalancer/loadbalancer.go:103-115 | every RFC 1123 subdomain becomes a label of at most 63 characters, and labels stay as they are |
| `TargetPool.RewrittenName` | cloud/services/loadbalancer/loadbalancer.go:103-115 | a rewritten name is a piece of the name with dashes for dots, and seven digits of its digest |
| `TargetPool.TargetNamesSeparated` | cloud/services/loadbalancer/loadbalancer.go:103-115 | rewritten names whose digest prefixes differ stay apart |
| `Ordering.SortedUnique` | cloud/sdk_client.go:713-731 | two sorted permutations are equal when the order tells elements apart, which is why comparing sorted lists decides multiset equality |
| `AddressPlan.BootstrapTargetIP` | controller/stackitcluster_infrastructure.go:326-344 | the stepping loop computes the placeholder address |
| `AddressPlan.PlaceholderMeaning` | controller/stackitcluster_infrastructure.go:326-344 | network address plus ten of the first IPv4 prefix of length at most 28, strictly between network and broadcast address, and 10.0.0.1 exactly without one |
| `AddressPlan.TenthAddress` | controller/stackitcluster_infrastructure.go:336-341 | ten steps stay in the prefix if and only if its length is at most 28, without wrap-around |
| `AddressPlan.DottedReads` | controller/stackitcluster_infrastructure.go:336-344 | the address written with dots reads back as itself, octet by octet |
| `Zones.FailureDomainsFromZones` | controller/stackitcluster_infrastructure.go:274-297 | the loop and sort compute the published zones |
| `Zones.PublishedZones` | controller/stackitcluster_infrastructure.go:274-324 | exactly the listed zones that do not end in "-m", sorted, and the region's own three if there are none |
| `Zones.ValidateMachineAvailabilityZone` | controller/stackitmachine_infrastructure.go:186-209 | accepts exactly published choices, or anything when nothing is published |
| `Zones.AvailabilityZone` | scope/machine_scope.go:122-149 | failure domain, else spec zone, else the first published zone after sorting, else the region's first |
| `Zones.PlacementIsPublished` | scope/machine_scope.go:122-149 | a machine that passes validation lands in a published zone, never a metro zone, and without a choice in the least one |
| `Zones.PlacementUnpublished` | scope/machine_scope.go:122-149 | where nothing is published every choice passes, and without a choice it is the region's first zone |
| `Labels.BuildClusterTags` | util/tags.go:37-53 | user labels first, the provider's own keys never overwritten |
| `Labels.BuildMachineTags` | util/tags.go:55-73 | the same for machines |
| `Labels.LabelsContainTags` | cloud/sdk_client.go:1120-1128 | true if and only if every tag is among the labels |
| `Labels.ClustersApart` | util/tags.go:37-53 | nothing of one cluster matches a selector of a cluster with another name or namespace |
| `Labels.MachinesApart` | util/tags.go:55-73 | machines with different UIDs never match each other |
| `Labels.RolesApart` | cloud/services/bastion/bastion.go:27-53 | bastion and node-SSH resources never match each other, whatever the user labels |
| `Labels.BastionSelectorOnMachine` | cloud/services/bastion/bastion.go:27-28 | the bastion selector matches a machine server if and only if it is in the cluster, claims the role and repeats the cluster's labels |
| `Labels.MachineSelectorOnBastion` | util/tags.go:55-73 | the exact condition the other way round |
| `Labels.LoadBalancerLabels` | cloud/sdk_client.go:1161-1167 | every key with "/" replaced, each label value one of its keys' |
| `Labels.FoundAgainIffCoherent` | cloud/sdk_client.go:1152-1167 | a load balancer is found again by its tags, in every map order, if and only if keys that fall together carry one value |
| `Labels.EmptyValueAsksNothing` | cloud/sdk_client.go:1152-1159 | a label with an empty value asks for nothing where the key is missing, any other value asks for it |
| `Labels.CoherentLabels` | cloud/sdk_client.go:1161-1167 | for such tags every map order makes the same labels |
| `Labels.ReservedKeyCanCollide` | cloud/sdk_client.go:1161-1167 | a user label for which that fails |
| `Webhook.ValidateMachineUpdate` | webhook/v1alpha1/validation_helpers.go:223-257 | admits an update if and only if image, type, zone, key, network, security groups and root volume (its deletion flag as defaulted) are unchanged, a set provider ID stays, and labels stay while an instance is recorded; reports each violation |
| `Webhook.MachineHistoryFrozen` | webhook/v1alpha1/validation_helpers.go:223-257 | over any history each of those fields is the first object's, a set provider ID stays, labels are constant while an instance is recorded |
| `Webhook.MachineSpecRef.Default` | webhook/v1alpha1/validation_helpers.go:66-77 | in-place defaulting computes the defaulted spec |
| `Webhook.DefaultingFillsIn` | webhook/v1alpha1/validation_helpers.go:60-81 | defaulting changes nothing but a missing deleteOnTermination, which becomes true exactly for a volume of which anything is given, or for an enabled bastion |
| `Webhook.DefaultingAndVolumes` | webhook/v1alpha1/validation_helpers.go:60-81 | defaulting is idempotent; it preserves volume validity for machines, and for clusters if and only if no enabled bastion lacks a volume |
| `Webhook.ValidateClusterUpdate` | webhook/v1alpha1/validation_helpers.go:104-138 | admits an update if and only if the frozen fields are unchanged, and reports each violation |
| `Webhook.ClusterHistoryFrozen` | webhook/v1alpha1/validation_helpers.go:104-138 | over any history: identity, network and credentials never move, the load balancer switch stays while one is recorded, and image, type, key, CIDRs and volume of an enabled bastion stay while its server is recorded |
| `Webhook.BastionFreezeBypassed` | webhook/v1alpha1/validation_helpers.go:125-135 | two admitted updates replace any bastion field with the same server recorded |
| `Witnesses.DuplicateServer` | controller/stackitmachine_infrastructure.go:308-368 | a concrete safe state and pass that end with two servers |
| `Witnesses.ServerLeftBehind` | controller/stackitmachine_infrastructure.go:211-287 | a concrete safe state and pass that end with a server and no finalizer |
| `Witnesses.RelabelledServer` | webhook/v1alpha1/validation_helpers.go:252-254 | a concrete label change after which a working pass makes a second server, and a working deletion pass leaves the first |
| `Witnesses.NamesDiffer` | cloud/sdk_client.go:501-535 | a concrete cloud in which node SSH access cannot be removed although every call works |
| `Witnesses.SkippedUntrue` | controller/stackitcluster_bastion.go:54-76 | a concrete pass after which Skipped is persisted and a bastion group exists |
| `Witnesses.AddressHidden` | controller/stackitcluster_bastion.go:125-130 | a concrete state of the run invariant and a pass that hide a replaced address although the patch lands, without blocking teardown |
| `Witnesses.ServerHidden` | controller/stackitcluster_bastion.go:125-130 | a concrete state of the run invariant and a pass that hide a replaced server and so block teardown |
| `Witnesses.ForeignBalancerDeleted` | controller/stackitcluster_infrastructure.go:522-541 | a concrete deletion pass that deletes another cluster's load balancer |
| `Witnesses.RefusedListingLeaks` | cloud/sdk_client.go:649-653 | a concrete state of the run invariant and a deletion pass with a refused listing after which the finalizer is gone and the load balancer is not |
| `Witnesses.IncoherentTagsLeak` | cloud/sdk_client.go:1152-1167 | the same for all user labels whose keys collide with different values, every call working, for some two map orders |
| `Witnesses.IncoherentTagsBlock` | cloud/sdk_client.go:577-632 | for all such labels a live cluster of the run invariant and two passes in which every call works: in one map order it gets ready, in the other the load balancer's own name is in the way |
| `Witnesses.SomeTagsAreIncoherent` | cloud/sdk_client.go:1161-1167 | and there are such user labels |
| `Witnesses.NetworkStale` | controller/stackitcluster_infrastructure.go:397-469 | a concrete pass after which the recorded network hides the real one |

## Left out

- SDK request building, HTTP, authentication and environment variables: a call is its effect on the cloud and its error class.
- Kubernetes client, patch helper, caches, watches other than the Machine filter, events and logging: an object is read, and a patch lands or is lost.
- Requeue delays and retry classification: a run contains any number of passes, so when the next one starts does not matter.
- Condition messages, transition times and the patch helper's list of owned conditions: a condition is a status and a reason.
- The server-state table, bootstrap and credentials Secret parsing, provider ID formatting and bastion spec and CIDR validation: each is an observation of the pass.
- SHA-256 and regular expressions: a digest is any function to 64 hexadecimal characters, and names are character-class predicates.
- The in-memory fake client: it differs from the SDK client and is not a specification.
- Attachment of the public IP to the bastion: an assignment call can fail or work, but which server an address points to is not state of the cloud.
- FirewallRules.SecurityGroup.EnsureRules: inside runs the reconciliation of rules is one call that works or fails; its own theorem is about one group and is not tied to the cloud of the run model.
- The rule that lets nodes accept SSH from the bastion group: one find-or-create without further structure, so it is a call that works or fails.
- CloudClient.SDKClient.EnsureByTags: the guard that skips the lookup of a network without tags is not modelled, because cluster tags are never empty.
- CloudClient.SDKClient.EnsureAPIServerLoadBalancer: a load balancer always has its target pool and one listener; the branch for a listing entry without them is not modelled.
- CloudClient.SDKClient.EnsureAPIServerLoadBalancer: lookup and creation within one call use one label map; for tags whose keys collide the code could make two. Different passes may use different maps.
- ClusterConverges.EveryRunConverges: the passes it counts use one label map, which is a restriction only for tags whose keys collide.
- MachineGates.NewServerIsPlaced: speaks of the zone a creation asks for; the zone of a server is not state of the cloud.
- MachineReconciler.Reconciler.EnsureServerExists: does not model spec.securityGroups; a new machine server is attached to nothing.
- CloudClient.SDKClient.EnsureBastionHost: does not model which server the public IP points to; the assignment is a call that works or fails.
- CloudClient.SDKClient.Dismantle: does not model the assignment of the public IP that it undoes; that step is a call that works or fails.
- CloudClient.SDKClient.EnsureNodeSSHAccess: does not model the rules of the group; creating its one rule is a call that works or fails.
- CloudClient.SDKClient.DropSecurityGroup: does not model the rules of the group; listing and deleting them is a call that works or fails.
- CloudClient.SDKClient.SetAPIServerLoadBalancerTargets: does not model a load balancer without a target pool or listener.
- BastionRuns.SkippedMeansAbsent: labels are fixed, and a machine whose labels claim the bastion role is excluded; `Labels.BastionSelectorOnMachine` says exactly which those are, and `BastionRelabel.SecondBastionIff` what a label change does.
- TeardownRuns.TeardownIsRestartable: labels are fixed, and a machine whose labels claim the bastion role is excluded, as above.
- TargetPool.TargetNamesSeparated: says nothing about a plain label that happens to equal a rewritten name, which the code does not rule out.
- Overlapping passes of the two controllers and stale reads: passes are atomic.
