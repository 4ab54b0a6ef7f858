/** One reconcile pass of a StackitCluster as a function of the stored object, the
    cloud and everything the pass can observe or suffer
    (controller/stackitcluster_controller.go, controller/stackitcluster_infrastructure.go,
    controller/stackitcluster_bastion.go). */
module ClusterModel {
  import opened Api
  import opened Labels
  import opened CloudModel
  import opened Conditions
  import AddressPlan
  import TargetPool
  import Zones

  datatype ConditionType = Ready | NetworkReady | LoadBalancerReady | CredentialsReady | BastionReady | Paused

  /** hash 0 is the empty cloud-init hash. */
  datatype BastionStatus = BastionStatus(ids: BastionIDs, ip: string, hash: nat)

  const NoBastion := BastionStatus(BastionIDs(0, 0, 0), "", 0)

  datatype Spec = Spec(network: Id, balancerEnabled: bool, bastionEnabled: bool, bastionValid: bool, labels: Tags)

  /** What a pass writes: the status, and spec.controlPlaneEndpoint, which the
      controller fills in once the load balancer has an address. */
  datatype Status = Status(
    specEndpoint: string,
    ready: bool, provisioned: bool, network: Id, managed: bool, endpoint: string, balancerID: string,
    bastion: BastionStatus, zones: Zones.Published, conditions: map<ConditionType, Condition>)

  datatype StackitCluster = StackitCluster(deleting: bool, finalizer: bool, spec: Spec, status: Status)

  predicate Gone(o: StackitCluster) { o.deleting && !o.finalizer }

  /** name and namespace of the StackitCluster, and the name of the owning Cluster. */
  datatype Identity = Identity(name: string, namespace: string, clusterName: string, region: string)

  datatype Env = Env(
    ownersFound: bool, paused: bool, client: ClientBuild,
    listZones: Outcome, zones: seq<string>,
    getNetwork: Outcome, createNetwork: FindOrCreateCalls, prefixes: seq<AddressPlan.Prefix>,
    machinesListed: bool, machines: seq<TargetPool.Machine>, sha: TargetPool.Digest,
    balancerLabels: Tags, balancer: EnsureBalancerCalls, balancerIP: string, setTargets: SetTargetsCalls,
    cloudInitFound: bool, cloudInitHash: nat,
    deleteNodeSSH: DeleteNodeSSHCalls, deleteBastion: DeleteBastionCalls,
    ensureBastion: EnsureBastionCalls, bastionUp: bool, bastionIP: string,
    deleteBalancer: Outcome, findNetwork: Outcome, deleteNetwork: Outcome,
    finalizerPatchLands: bool, finalPatchLands: bool)

  datatype World = World(stored: StackitCluster, cloud: CloudState, abandoned: bool)

  /** Where a stage of a pass leaves off; go says whether the pass continues. */
  datatype Stage = Stage(status: Status, cloud: CloudState, go: bool)

  const APIServerPort := 6443

  function ClusterTagsOf(spec: Spec, id: Identity): Tags { ClusterTags(id.name, id.namespace, spec.labels) }
  function BastionTagsOf(spec: Spec, id: Identity): Tags { BastionTags(id.name, id.namespace, spec.labels) }
  function NodeTagsOf(spec: Spec, id: Identity): Tags { NodeSSHTags(id.name, id.namespace, spec.labels) }
  function BalancerName(id: Identity): string { id.name + "-apiserver" }

  function NetworkID(spec: Spec, st: Status): Id
  {
    if spec.network != 0 then spec.network else st.network
  }

  function Mark(st: Status, t: ConditionType, status: bool, reason: Reason): Status
  {
    st.(conditions := st.conditions[t := Condition(status, reason)])
  }

  /** SetNotReady for the condition t and for Ready. */
  function NotReady(st: Status, t: ConditionType, reason: Reason): Status
  {
    Mark(Mark(st.(ready := false), t, false, reason), Ready, false, reason)
  }

  // ------------------------------------------------------------------ normal pass

  function CredentialStage(st: Status, c: CloudState, id: Identity, e: Env): Stage
  {
    var st1 := st.(zones := Zones.RegionZones(id.region));
    if !e.client.Built? then Stage(NotReady(st1, CredentialsReady, CredentialsInvalid), c, false)
    else
      var st2 := Mark(st1, CredentialsReady, true, Available);
      if !e.listZones.Works? then Stage(NotReady(st2, Ready, AvailabilityZonesError), c, false)
      else Stage(st2.(zones := Zones.Publish(id.region, e.zones)), c, true)
  }

  /** What the network calls came to: a failure, or the network to use. */
  datatype NetworkCall = NetworkMissing(cloud: CloudState, reason: Reason) | NetworkIs(cloud: CloudState, network: Id)

  ghost function CallNetwork(spec: Spec, st: Status, c: CloudState, id: Identity, e: Env): NetworkCall
  {
    if spec.network != 0 then
      var got := Get(c, Networks, spec.network, e.getNetwork);
      if got.Err? then NetworkMissing(c, NetworkNotFound) else NetworkIs(c, got.value)
    else
      var got := if st.network != 0 then Get(c, Networks, st.network, e.getNetwork) else Err(NotFound);
      if got.Ok? then NetworkIs(c, got.value)
      else if got.error != NotFound then NetworkMissing(c, NetworkError)
      else
        var made := FindOrCreate(c, Networks, ClusterTagsOf(spec, id), e.createNetwork);
        if made.result.Err? then NetworkMissing(made.cloud, NetworkCreateError)
        else NetworkIs(made.cloud, made.result.value)
  }

  function AfterNetwork(spec: Spec, st: Status, call: NetworkCall): Stage
  {
    match call
    case NetworkMissing(c, reason) => Stage(NotReady(st, NetworkReady, reason), c, false)
    case NetworkIs(c, network) =>
      Stage(Mark(st.(network := network, managed := spec.network == 0), NetworkReady, true, Available), c, true)
  }

  ghost function NetworkStage(spec: Spec, st: Status, c: CloudState, id: Identity, e: Env): Stage
  {
    AfterNetwork(spec, st, CallNetwork(spec, st, c, id, e))
  }

  /** The targets the pool should have: the eligible control plane. */
  function Desired(id: Identity, e: Env): seq<TargetPool.Target>
  {
    TargetPool.DesiredPool(TargetPool.EligibleOf(e.machines, id.clusterName), e.sha)
  }

  function Seed(id: Identity, e: Env): seq<TargetPool.Target>
  {
    if Desired(id, e) != [] then Desired(id, e)
    else [TargetPool.Target("capi-bootstrap-placeholder", AddressPlan.Dotted(AddressPlan.Placeholder(e.prefixes)))]
  }

  datatype BalancerCall =
    | NoBalancer(cloud: CloudState)
    | MachinesUnknown(cloud: CloudState)
    | BalancerFailed(cloud: CloudState)
    | BalancerPending(cloud: CloudState, name: string) // it has no address yet
    | TargetsFailed(cloud: CloudState, name: string)
    | BalancerServes(cloud: CloudState, name: string)

  ghost function CallBalancer(spec: Spec, c: CloudState, id: Identity, e: Env): BalancerCall
  {
    if !spec.balancerEnabled then NoBalancer(c)
    else if !e.machinesListed then MachinesUnknown(c)
    else
      var made := EnsureBalancer(c, BalancerName(id), e.balancerLabels, APIServerPort, Seed(id, e), e.balancer);
      if made.result.Err? then BalancerFailed(made.cloud)
      else if |e.balancerIP| == 0 then BalancerPending(made.cloud, made.result.value)
      else CallTargets(made.cloud, made.result.value, id, e)
  }

  /** An empty target list never overwrites the pool. */
  function CallTargets(c: CloudState, name: string, id: Identity, e: Env): BalancerCall
  {
    if Desired(id, e) == [] then BalancerServes(c, name)
    else
      var set_ := SetTargets(c, name, APIServerPort, Desired(id, e), e.setTargets);
      if set_.result.Err? then TargetsFailed(set_.cloud, name) else BalancerServes(set_.cloud, name)
  }

  function AfterBalancer(st: Status, call: BalancerCall, ip: string): Stage
  {
    match call
    case NoBalancer(c) =>
      if |st.specEndpoint| > 0
      then Stage(Mark(st.(endpoint := st.specEndpoint), LoadBalancerReady, true, Skipped), c, true)
      else Stage(NotReady(st, LoadBalancerReady, EndpointMissing), c, false)
    case MachinesUnknown(c) => Stage(Mark(st, LoadBalancerReady, false, MachineListError), c, false)
    case BalancerFailed(c) => Stage(NotReady(st, LoadBalancerReady, LoadBalancerError), c, false)
    case BalancerPending(c, name) =>
      Stage(NotReady(st.(balancerID := name), LoadBalancerReady, Provisioning), c, false)
    case TargetsFailed(c, name) =>
      Stage(Mark(Published(st, name, ip), LoadBalancerReady, false, LoadBalancerTargetError), c, false)
    case BalancerServes(c, name) =>
      var wasReady := IsTrue(st.conditions, LoadBalancerReady) && st.endpoint == ip;
      Stage(if wasReady then Published(st, name, ip)
            else Mark(Published(st, name, ip), LoadBalancerReady, true, Available),
            c, true)
  }

  function Published(st: Status, name: string, ip: string): Status
  {
    st.(balancerID := name, specEndpoint := ip, endpoint := ip)
  }

  ghost function BalancerStage(spec: Spec, st: Status, c: CloudState, id: Identity, e: Env): Stage
  {
    AfterBalancer(st, CallBalancer(spec, c, id, e), e.balancerIP)
  }

  predicate HasBastionStatus(s: BastionStatus)
  {
    s.ids.server != 0 || s.ids.address != 0 || |s.ip| > 0 || s.ids.group != 0
  }

  predicate NeedsRecreate(st: Status, e: Env)
  {
    HasBastionStatus(st.bastion) && st.bastion.hash != e.cloudInitHash
  }

  /** The bastion was already cleaned up after it was disabled. */
  predicate KnownAbsent(st: Status)
  {
    BastionReady in st.conditions && st.conditions[BastionReady].reason == Skipped
  }

  /** DeleteNodeSSHAccess, then DeleteBastion with the recorded IDs. */
  ghost function RemoveBastion(spec: Spec, st: Status, c: CloudState, id: Identity, e: Env,
                               tolerated: set<ErrorClass>): Op<()>
  {
    var node := Forgive(DeleteNodeSSH(c, NodeTagsOf(spec, id), e.deleteNodeSSH), tolerated);
    if node.result.Err? then node
    else Forgive(DeleteBastion(node.cloud, BastionTagsOf(spec, id), st.bastion.ids, e.deleteBastion), tolerated)
  }

  datatype BastionCall =
    | BastionAbsent(cloud: CloudState)
    | BastionRejected(cloud: CloudState, reason: Reason)
    | BastionRecreating(cloud: CloudState)
    | BastionIs(cloud: CloudState, ids: BastionIDs)

  ghost function CallBastion(spec: Spec, st: Status, c: CloudState, id: Identity, e: Env): BastionCall
  {
    if !spec.bastionEnabled then
      var removed := if KnownAbsent(st) then Op(c, Ok(())) else RemoveBastion(spec, st, c, id, e, {});
      if removed.result.Err? then BastionRejected(removed.cloud, BastionError) else BastionAbsent(removed.cloud)
    else if !spec.bastionValid then BastionRejected(c, InvalidBastionSpec)
    else if !e.cloudInitFound then BastionRejected(c, CloudInitRefError)
    else if NeedsRecreate(st, e) then
      var removed := RemoveBastion(spec, st, c, id, e, {NotFound});
      if removed.result.Err? then BastionRejected(removed.cloud, BastionError) else BastionRecreating(removed.cloud)
    else
      var made := EnsureBastion(c, BastionTagsOf(spec, id), NetworkID(spec, st), e.ensureBastion);
      if made.result.Err? then BastionRejected(made.cloud, BastionError) else BastionIs(made.cloud, made.result.value)
  }

  function AfterBastion(st: Status, call: BastionCall, e: Env): Stage
  {
    match call
    case BastionAbsent(c) =>
      Stage(Mark(if KnownAbsent(st) then st else st.(bastion := NoBastion), BastionReady, true, Skipped), c, true)
    case BastionRejected(c, reason) => Stage(NotReady(st, BastionReady, reason), c, false)
    case BastionRecreating(c) => Stage(NotReady(st.(bastion := NoBastion), BastionReady, Recreating), c, false)
    case BastionIs(c, ids) =>
      var st1 := st.(bastion := BastionStatus(ids, e.bastionIP, e.cloudInitHash));
      if !e.bastionUp then Stage(NotReady(st1, BastionReady, ServerNotUp), c, false)
      else if |e.bastionIP| == 0 then Stage(NotReady(st1, BastionReady, Provisioning), c, false)
      else Stage(Mark(st1, BastionReady, true, Available), c, true)
  }

  ghost function BastionStage(spec: Spec, st: Status, c: CloudState, id: Identity, e: Env): Stage
  {
    AfterBastion(st, CallBastion(spec, st, c, id, e), e)
  }

  /** reconcileNormal after the finalizer is persisted. */
  ghost function Normal(spec: Spec, st: Status, c: CloudState, id: Identity, e: Env): Stage
  {
    var s1 := CredentialStage(st, c, id, e);
    if !s1.go then s1
    else
      var s2 := NetworkStage(spec, s1.status, s1.cloud, id, e);
      if !s2.go then s2
      else
        var s3 := BalancerStage(spec, s2.status, s2.cloud, id, e);
        if !s3.go then s3
        else
          var s4 := BastionStage(spec, s3.status, s3.cloud, id, e);
          if !s4.go then s4
          else Stage(Mark(s4.status.(ready := true, provisioned := true), Ready, true, Available), s4.cloud, true)
  }

  // ---------------------------------------------------------------- deletion pass

  ghost function DropBalancer(st: Status, c: CloudState, e: Env): Stage
  {
    var name := ResolveBalancer(c, st.balancerID, e.balancerLabels, e.balancer.list, e.balancer.serviceOff);
    if name.Err? then Stage(st, c, false)
    else if |name.value| == 0 then Stage(st, c, true)
    else
      var d := Forgive(DeleteBalancer(c, name.value, e.deleteBalancer), {NotFound});
      if d.result.Err? then Stage(st, d.cloud, false) else Stage(st.(balancerID := ""), d.cloud, true)
  }

  ghost function DropBastion(spec: Spec, st: Status, c: CloudState, id: Identity, e: Env): Stage
  {
    var removed := RemoveBastion(spec, st, c, id, e, {NotFound});
    if removed.result.Err? then Stage(st, removed.cloud, false)
    else Stage(if HasBastionStatus(st.bastion) then st.(bastion := NoBastion) else st, removed.cloud, true)
  }

  /** ResolveManagedNetworkID: none (0) for a user's own network. */
  ghost function NetworkToDelete(spec: Spec, st: Status, c: CloudState, id: Identity, e: Env): Result<Id>
  {
    if spec.network != 0 then Ok(0) else ResolveID(c, Networks, st.network, ClusterTagsOf(spec, id), e.findNetwork)
  }

  ghost function DropNetwork(spec: Spec, st: Status, c: CloudState, id: Identity, e: Env): Stage
  {
    var network := NetworkToDelete(spec, st, c, id, e);
    if network.Err? then Stage(st, c, false)
    else if network.value == 0 then Stage(st, c, true)
    else
      var d := DeleteIfThere(c, Networks, network.value, e.deleteNetwork);
      if d.result == Err(Conflict) then Stage(Mark(st, NetworkReady, false, NetworkInUse), d.cloud, false)
      else if d.result.Err? then Stage(st, d.cloud, false)
      else Stage(st.(network := 0, managed := false), d.cloud, true)
  }

  /** The three clean-ups in order; each failure ends the pass. */
  ghost function CleanUp(spec: Spec, st: Status, c: CloudState, id: Identity, e: Env): Stage
  {
    var s1 := DropBalancer(st, c, e);
    if !s1.go then s1
    else
      var s2 := DropBastion(spec, s1.status, s1.cloud, id, e);
      if !s2.go then s2 else DropNetwork(spec, s2.status, s2.cloud, id, e)
  }

  /** A deletion pass; go says that the finalizer is to be removed. */
  ghost function Delete(spec: Spec, st: Status, c: CloudState, id: Identity, e: Env): Stage
  {
    if !e.machinesListed || |e.machines| > 0 then Stage(st, c, false)
    else match e.client
      case SecretGone => Stage(st, c, true)
      case BuildFailed => Stage(Mark(st, CredentialsReady, false, CredentialsInvalid), c, false)
      case Built => CleanUp(spec, st, c, id, e)
  }

  // -------------------------------------------------------------------- the pass

  ghost function Reconcile(w: World, id: Identity, e: Env): World
  {
    var o := w.stored;
    if Gone(o) || !e.ownersFound then w
    else if e.paused then
      w.(stored := if e.finalPatchLands then o.(status := Mark(o.status, Paused, true, IsPaused)) else o)
    else
      var st := Mark(o.status, Paused, false, NotPaused);
      if o.deleting then
        var s := Delete(o.spec, st, w.cloud, id, e);
        World(if e.finalPatchLands then o.(status := s.status, finalizer := o.finalizer && !s.go) else o, s.cloud,
              w.abandoned || (e.finalPatchLands && s.go && e.client.SecretGone?))
      else
        var held := o.(finalizer := true, status := st);
        if !o.finalizer && !e.finalizerPatchLands then
          w.(stored := if e.finalPatchLands then held else o)
        else
          var s := Normal(o.spec, st, w.cloud, id, e);
          World(if e.finalPatchLands then held.(status := s.status) else if o.finalizer then o else held,
                s.cloud, w.abandoned)
  }
}
