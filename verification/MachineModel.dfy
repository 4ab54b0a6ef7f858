/** One reconcile pass of a StackitMachine as a function of the stored object, the
    cloud and everything the pass can observe or suffer
    (controller/stackitmachine_controller.go, controller/stackitmachine_infrastructure.go). */
module MachineModel {
  import opened Api
  import opened Labels
  import opened CloudModel
  import opened Conditions
  import Zones

  datatype ConditionType = Ready | InstanceReady | BootstrapReady | CredentialsReady | Paused

  /** The providerID is a function of the server ID and is kept as that ID. */
  datatype StackitMachine = StackitMachine(
    deleting: bool, finalizer: bool, ready: bool, provisioned: bool, instanceID: Id, providerID: Id,
    conditions: map<ConditionType, Condition>)

  /** The API server removes an object once it is being deleted and holds no finalizer. */
  predicate Gone(m: StackitMachine) { m.deleting && !m.finalizer }

  datatype Bootstrap = BootstrapAvailable | BootstrapUnusable | BootstrapAbsent

  /** What a pass reads from the StackitCluster. */
  datatype ClusterView = ClusterView(
    ready: bool, specNetwork: Id, statusNetwork: Id, zones: Zones.Published, bastionEnabled: bool, bastionGroup: Id)

  /** The tags of the machine's server and of the cluster's node-SSH group. */
  datatype Identity = Identity(tags: Tags, nodeTags: Tags)

  datatype Env = Env(
    ownersFound: bool, paused: bool, cluster: ClusterView, machineNetwork: Id, zone: string, failureDomain: string,
    bootstrap: Bootstrap, client: ClientBuild, serverUp: bool,
    get: Outcome, find: Outcome, create: FindOrCreateCalls, delete: Outcome, nodeSSH: EnsureNodeSSHCalls,
    finalizerPatchLands: bool, finalPatchLands: bool)

  /** abandoned records that the object was finalized without cleanup because the
      credentials Secret was gone. */
  datatype World = World(stored: StackitMachine, cloud: CloudState, abandoned: bool)

  datatype Pass = Pass(machine: StackitMachine, cloud: CloudState)

  function Mark(m: StackitMachine, t: ConditionType, status: bool, reason: Reason): StackitMachine
  {
    m.(conditions := m.conditions[t := Condition(status, reason)])
  }

  /** SetNotReady for the condition t and for Ready. */
  function NotReady(m: StackitMachine, t: ConditionType, reason: Reason): StackitMachine
  {
    Mark(Mark(m.(ready := false), t, false, reason), Ready, false, reason)
  }

  function IsReady(m: StackitMachine): StackitMachine
  {
    Mark(Mark(m.(ready := true), InstanceReady, true, Available), Ready, true, Available)
  }

  function WithInstance(m: StackitMachine, id: Id): StackitMachine
  {
    m.(instanceID := id, providerID := id, provisioned := true)
  }

  function NetworkID(e: Env): Id
  {
    if e.machineNetwork != 0 then e.machineNetwork
    else if e.cluster.specNetwork != 0 then e.cluster.specNetwork else e.cluster.statusNetwork
  }

  datatype Ensured = Server(id: Id) | InstanceGone | Failed(error: ErrorClass)

  /** The recorded server, else the tagged one, else a new one unless one was provisioned before. */
  ghost function EnsureServer(m: StackitMachine, c: CloudState, tags: Tags, e: Env): (CloudState, Ensured)
  {
    var recorded := if m.instanceID != 0 then Get(c, Servers, m.instanceID, e.get) else Err(NotFound);
    if recorded.Ok? then (c, Server(recorded.value))
    else if recorded.error != NotFound then (c, Failed(recorded.error))
    else
      var tagged := Find(c, Servers, tags, e.find);
      if tagged.Ok? then (c, Server(tagged.value))
      else if tagged.error != NotFound then (c, Failed(tagged.error))
      else if m.provisioned then (c, InstanceGone)
      else if NetworkID(e) == 0 then (c, Failed(Transient))
      else
        var op := FindOrCreate(c, Servers, tags, e.create);
        (op.cloud, if op.result.Ok? then Server(op.result.value) else Failed(op.result.error))
  }

  ghost function NodeAccess(c: CloudState, nodeTags: Tags, server: Id, e: Env): Op<()>
  {
    if !e.cluster.bastionEnabled then Op(c, Ok(()))
    else if e.cluster.bastionGroup == 0 || server == 0 then Op(c, Err(Transient))
    else
      var op := EnsureNodeSSH(c, nodeTags, server, e.cluster.bastionGroup, e.nodeSSH);
      Op(op.cloud, if op.result.Ok? then Ok(()) else Err(op.result.error))
  }

  /** Everything of reconcileNormal that precedes the server, when it does not stop there. */
  predicate ReachesServer(e: Env)
  {
    e.cluster.ready && Zones.Accepts(e.cluster.zones, e.zone, e.failureDomain) &&
    e.bootstrap.BootstrapAvailable? && e.client.Built?
  }

  function StopsEarly(m: StackitMachine, e: Env): StackitMachine
    requires !ReachesServer(e)
  {
    if !e.cluster.ready then NotReady(m, Ready, InfrastructureNotReady)
    else if !Zones.Accepts(e.cluster.zones, e.zone, e.failureDomain)
    then NotReady(m, InstanceReady, InvalidFailureDomain)
    else if !e.bootstrap.BootstrapAvailable?
    then
      var reason := if e.bootstrap.BootstrapUnusable? then BootstrapInvalid else BootstrapNotReady;
      Mark(Mark(m, BootstrapReady, false, reason), Ready, false, reason)
    else
      var m1 := Mark(m, BootstrapReady, true, Available);
      Mark(Mark(m1, CredentialsReady, false, CredentialsInvalid), Ready, false, CredentialsInvalid)
  }

  function WithCredentials(m: StackitMachine): StackitMachine
  {
    Mark(Mark(m, BootstrapReady, true, Available), CredentialsReady, true, Available)
  }

  /** The rest of reconcileNormal, given what became of the server. */
  ghost function Finish(m: StackitMachine, c: CloudState, server: Ensured, id: Identity, e: Env): Pass
  {
    match server
    case InstanceGone => Pass(NotReady(m, InstanceReady, InstanceNotFound), c)
    case Failed(_) => Pass(NotReady(m, InstanceReady, InstanceError), c)
    case Server(server) =>
      var m1 := WithInstance(m, server);
      if !e.serverUp then Pass(NotReady(m1, InstanceReady, ServerNotUp), c)
      else
        var access := NodeAccess(c, id.nodeTags, server, e);
        if access.result.Err? then Pass(NotReady(m1, Ready, BastionSSHAccessError), access.cloud)
        else Pass(IsReady(m1), access.cloud)
  }

  /** reconcileNormal after the finalizer is persisted. */
  ghost function Normal(m: StackitMachine, c: CloudState, id: Identity, e: Env): Pass
  {
    if !ReachesServer(e) then Pass(StopsEarly(m, e), c)
    else
      var (c1, server) := EnsureServer(WithCredentials(m), c, id.tags, e);
      Finish(WithCredentials(m), c1, server, id, e)
  }

  ghost function Delete(m: StackitMachine, c: CloudState, id: Identity, e: Env): Pass
  {
    match e.client
    case SecretGone => Pass(m.(finalizer := false), c)
    case BuildFailed => Pass(Mark(m, CredentialsReady, false, CredentialsInvalid), c)
    case Built =>
      var server := ResolveID(c, Servers, m.instanceID, id.tags, e.find);
      if server.Err? then Pass(m, c)
      else if server.value == 0 then Pass(m.(finalizer := false), c)
      else
        var op := DeleteIfThere(c, Servers, server.value, e.delete);
        Pass(if op.result.Err? then m else m.(instanceID := 0, finalizer := false), op.cloud)
  }

  /** Reconcile: read, dispatch, and write back in the deferred patch, which lands or is lost. */
  ghost function Reconcile(w: World, id: Identity, e: Env): World
  {
    if Gone(w.stored) || !e.ownersFound then w
    else if e.paused then
      w.(stored := if e.finalPatchLands then Mark(w.stored, Paused, true, IsPaused) else w.stored)
    else
      var m := Mark(w.stored, Paused, false, NotPaused);
      if m.deleting then
        var p := Delete(m, w.cloud, id, e);
        World(if e.finalPatchLands then p.machine else w.stored, p.cloud,
              w.abandoned || (e.finalPatchLands && e.client.SecretGone?))
      else
        var held := m.(finalizer := true);
        if !m.finalizer && !e.finalizerPatchLands then
          w.(stored := if e.finalPatchLands then held else w.stored)
        else
          var p := Normal(held, w.cloud, id, e);
          World(if e.finalPatchLands then p.machine else if m.finalizer then w.stored else held, p.cloud, w.abandoned)
  }
}
