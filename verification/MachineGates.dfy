/** What a machine pass waits for and what it says while it waits, told from the fields
    it observes. */
module MachineGates {
  import opened Api
  import opened CloudModel
  import opened CloudValidity
  import opened Removal
  import opened MachineModel
  import opened MachineRuns
  import BastionMaking
  import Conditions
  import MachineFrames
  import Zones

  predicate Says(m: StackitMachine, t: ConditionType, status: bool, reason: Conditions.Reason)
  {
    t in m.conditions && m.conditions[t] == Conditions.Condition(status, reason)
  }

  /** A pass that gets to reconcileNormal with the finalizer persisted. */
  predicate Proceeds(w: World, e: Env)
  {
    !w.stored.deleting && e.ownersFound && !e.paused && (w.stored.finalizer || e.finalizerPatchLands)
  }

  /** Nothing is published, or every zone that was chosen is. */
  predicate ZonesPublished(e: Env)
  {
    || e.cluster.zones == []
    || ((e.zone == "" || e.zone in e.cluster.zones) && (e.failureDomain == "" || e.failureDomain in e.cluster.zones))
  }

  /** The cluster is ready, the chosen zones are published, bootstrap data and
      credentials are there. */
  predicate MayAct(e: Env)
  {
    && e.cluster.ready && ZonesPublished(e)
    && e.bootstrap == BootstrapAvailable && e.client == Built
  }

  // ------------------------------------------------------------- passes that wait

  /** A paused pass, and one without its owners, leaves the cloud and all of the object
      but the Paused condition alone, deletion or not. */
  lemma PausedOnlySaysSo(w: World, id: Identity, e: Env)
    requires e.paused || !e.ownersFound
    ensures var w' := Reconcile(w, id, e);
            && w'.cloud == w.cloud && w'.abandoned == w.abandoned
            && w'.stored == w.stored.(conditions := w'.stored.conditions)
            && Conditions.SameBut(w.stored.conditions, w'.stored.conditions, {Paused})
            && (e.ownersFound && e.finalPatchLands && !Gone(w.stored) ==>
                  Says(w'.stored, Paused, true, Conditions.IsPaused))
  {
  }

  /** What a pass that may not act says, and that it keeps the record. */
  ghost predicate Blames(m: StackitMachine, m': StackitMachine, e: Env)
  {
    && m'.instanceID == m.instanceID && m'.providerID == m.providerID && m'.provisioned == m.provisioned
    && if !e.cluster.ready then
         && !m'.ready && Says(m', Ready, false, Conditions.InfrastructureNotReady)
         && Conditions.SameBut(m.conditions, m'.conditions, {Paused, Ready})
       else if !ZonesPublished(e) then
         && !m'.ready && Says(m', InstanceReady, false, Conditions.InvalidFailureDomain)
         && Says(m', Ready, false, Conditions.InvalidFailureDomain)
         && Conditions.SameBut(m.conditions, m'.conditions, {Paused, Ready, InstanceReady})
       else if e.bootstrap != BootstrapAvailable then
         var reason := if e.bootstrap == BootstrapUnusable then Conditions.BootstrapInvalid
                       else Conditions.BootstrapNotReady;
         && m'.ready == m.ready && Says(m', BootstrapReady, false, reason) && Says(m', Ready, false, reason)
         && Conditions.SameBut(m.conditions, m'.conditions, {Paused, Ready, BootstrapReady})
       else
         && m'.ready == m.ready && Says(m', BootstrapReady, true, Conditions.Available)
         && Says(m', CredentialsReady, false, Conditions.CredentialsInvalid)
         && Says(m', Ready, false, Conditions.CredentialsInvalid)
         && Conditions.SameBut(m.conditions, m'.conditions, {Paused, Ready, BootstrapReady, CredentialsReady})
  }

  /** A pass of a live machine that may not act changes nothing in the cloud and says
      why; in particular a machine whose zone is not published gets no server. */
  lemma WaitsAndSaysWhy(w: World, id: Identity, e: Env)
    requires Proceeds(w, e) && !MayAct(e)
    ensures var w' := Reconcile(w, id, e);
            w'.cloud == w.cloud && (e.finalPatchLands ==> Blames(w.stored, w'.stored, e))
  {
    StoppedSays(Mark(w.stored, Paused, false, Conditions.NotPaused).(finalizer := true), e);
    hide EnsureServer, Finish, StopsEarly, ReachesServer;
  }

  lemma StoppedSays(m: StackitMachine, e: Env)
    requires !MayAct(e)
    ensures !ReachesServer(e) && Blames(m, StopsEarly(m, e), e)
  {
    if !e.cluster.ready || !ZonesPublished(e) { StoppedByCluster(m, e); }
    else if e.bootstrap != BootstrapAvailable { StoppedByBootstrap(m, e); }
    else { StoppedByCredentials(m, e); }
    hide StopsEarly, Blames;
  }

  lemma StoppedByCluster(m: StackitMachine, e: Env)
    requires !e.cluster.ready || !ZonesPublished(e)
    ensures !ReachesServer(e) && Blames(m, StopsEarly(m, e), e)
  {
  }

  lemma StoppedByBootstrap(m: StackitMachine, e: Env)
    requires e.cluster.ready && ZonesPublished(e) && e.bootstrap != BootstrapAvailable
    ensures !ReachesServer(e) && Blames(m, StopsEarly(m, e), e)
  {
  }

  lemma StoppedByCredentials(m: StackitMachine, e: Env)
    requires e.cluster.ready && ZonesPublished(e) && e.bootstrap == BootstrapAvailable && e.client != Built
    ensures !ReachesServer(e) && Blames(m, StopsEarly(m, e), e)
  {
  }

  /** A live machine's pass touches the cloud, or ends ready, only if it may act. */
  lemma {:induction false} ActsOnlyIf(w: World, id: Identity, e: Env)
    requires !w.stored.deleting
    ensures var w' := Reconcile(w, id, e);
            && (w'.cloud != w.cloud ==> Proceeds(w, e) && MayAct(e))
            && (Proceeds(w, e) && e.finalPatchLands && Says(w'.stored, Ready, true, Conditions.Available) ==>
                  MayAct(e) && e.serverUp)
  {
    if Proceeds(w, e) && !MayAct(e) { WaitsAndSaysWhy(w, id, e); }
    hide EnsureServer, NodeAccess;
  }

  /** The server that a pass makes is asked for in a published zone, whatever the cloud
      listed for the cluster and whatever was chosen; never in one that ends in "-m". */
  lemma {:induction false} NewServerIsPlaced(w: World, id: Identity, e: Env, region: string, listed: seq<string>)
    requires e.cluster.zones == Zones.Publish(region, listed)
    requires !w.stored.deleting && w.cloud.servers != Reconcile(w, id, e).cloud.servers
    ensures var placed := Zones.Place(e.cluster.zones, e.zone, e.failureDomain, region);
            && placed in e.cluster.zones && !Zones.EndsInM(placed)
            && (e.failureDomain != "" ==> placed == e.failureDomain)
            && (e.failureDomain == "" && e.zone != "" ==> placed == e.zone)
  {
    ActsOnlyIf(w, id, e);
    hide Reconcile, Zones.Publish, Zones.Place;
    Zones.PlacementIsPublished(region, listed, e.zone, e.failureDomain);
  }

  /** A deletion pass without a client keeps server, record and finalizer and says so,
      unless the Secret is gone for good. */
  lemma DeletionWaitsForClient(w: World, id: Identity, e: Env)
    requires w.stored.deleting && w.stored.finalizer && e.ownersFound && !e.paused && e.client == BuildFailed
    ensures var w' := Reconcile(w, id, e);
            && w'.cloud == w.cloud && w'.stored.finalizer && w'.stored.instanceID == w.stored.instanceID
            && w'.abandoned == w.abandoned
            && (e.finalPatchLands ==> Says(w'.stored, CredentialsReady, false, Conditions.CredentialsInvalid))
  {
  }

  /** A deletion pass changes nothing about the object but Paused, the credentials'
      condition, the recorded instance and the finalizer. */
  lemma DeletionTouchesOnly(w: World, id: Identity, e: Env)
    requires w.stored.deleting
    ensures var m, m' := w.stored, Reconcile(w, id, e).stored;
            && m' == m.(conditions := m'.conditions, instanceID := m'.instanceID, finalizer := m'.finalizer)
            && Conditions.SameBut(m.conditions, m'.conditions, {Paused, CredentialsReady})
            && (e.client != BuildFailed ==> Conditions.SameBut(m.conditions, m'.conditions, {Paused}))
  {
    hide MachineModel.Delete;
    StepTouchesOnly(Mark(w.stored, Paused, false, Conditions.NotPaused), w.cloud, id, e);
  }

  lemma StepTouchesOnly(m: StackitMachine, c: CloudState, id: Identity, e: Env)
    ensures var m' := MachineModel.Delete(m, c, id, e).machine;
            && m' == m.(conditions := m'.conditions, instanceID := m'.instanceID, finalizer := m'.finalizer)
            && Conditions.SameBut(m.conditions, m'.conditions, {CredentialsReady})
            && (e.client != BuildFailed ==> m'.conditions == m.conditions)
  {
    hide ResolveID, DeleteIfThere;
  }

  /** With a client, the finalizer goes only with the record. */
  lemma DeletionClearsRecord(w: World, id: Identity, e: Env)
    requires w.stored.deleting && w.stored.finalizer && !Reconcile(w, id, e).stored.finalizer && e.client == Built
    ensures Reconcile(w, id, e).stored.instanceID == 0
  {
    hide Find, CloudModel.Delete;
  }

  // ------------------------------------------------------------ passes that act

  predicate CallsWork(e: Env)
  {
    && e.get.Works? && e.find.Works? && e.create.find.Works? && e.create.create.Works?
    && e.nodeSSH.group.find.Works? && e.nodeSSH.group.create.Works? && e.nodeSSH.rule.Works?
    && e.nodeSSH.attach.Works?
  }

  predicate NetworkGiven(e: Env)
  {
    e.machineNetwork != 0 || e.cluster.specNetwork != 0 || e.cluster.statusNetwork != 0
  }

  /** The recorded server is there, or a tagged one, or a first one may be made. */
  predicate Obtainable(m: StackitMachine, c: CloudState, id: Identity, e: Env)
  {
    || (m.instanceID != 0 && m.instanceID in c.servers.items)
    || Tagged(c, Servers, id.tags) != {}
    || (!m.provisioned && NetworkGiven(e))
  }

  /** No bastion, or its group is known and the node-SSH group is not ambiguous. */
  ghost predicate AccessPossible(c: CloudState, id: Identity, e: Env)
  {
    e.cluster.bastionEnabled ==> e.cluster.bastionGroup != 0 && AtMostOne(Tagged(c, Groups, id.nodeTags))
  }

  lemma EnsureServerWorks(m: StackitMachine, c: CloudState, id: Identity, e: Env)
    requires CallsWork(e) && id.tags != map[] && ValidStore(c.servers) && AtMostOne(Tagged(c, Servers, id.tags))
    ensures var (c', r) := EnsureServer(m, c, id.tags, e);
            && c' == c.(servers := c'.servers)
            && (if Obtainable(m, c, id, e) then r.Server? && r.id != 0 && r.id in c'.servers.items
                else c' == c && (if m.provisioned then r.InstanceGone? else r.Failed?))
  {
    MachineFrames.EnsureServerFrame(m, c, id.tags, e);
    FoundIsTheOne(c, Servers, id.tags, e.find);
    assert forall x :: x in Tagged(c, Servers, id.tags) ==> x in c.servers.items;
    hide Tagged;
  }

  /** Node SSH access, whatever its calls answer, is set up exactly when the bastion's
      group is known, the node-SSH group is found or made, its rule is there and the
      attachment went through or was there. */
  lemma NodeAccessIff(c: CloudState, id: Identity, server: Id, e: Env)
    requires id.nodeTags != map[] && server != 0 && Truthful(e.nodeSSH.group.find)
    ensures NodeAccess(c, id.nodeTags, server, e).result.Ok? <==>
            (e.cluster.bastionEnabled ==>
               && e.cluster.bastionGroup != 0
               && BastionMaking.Passes(Tagged(c, Groups, id.nodeTags), e.nodeSSH.group)
               && e.nodeSSH.rule.Works?
               && (e.nodeSSH.attach.Works? || e.nodeSSH.attach.error in {Conflict, InvalidInput, NotFound}))
  {
    BastionMaking.FindOrCreateEffect(c, Groups, id.nodeTags, e.nodeSSH.group);
    hide FindOrCreate, Tagged, BastionMaking.Passes;
  }

  /** A lookup that fails with anything but "not found" is an error and nothing else: no
      server is made, and the record stays. */
  lemma {:induction false} FailedLookupIsAnError(w: World, id: Identity, e: Env)
    requires Proceeds(w, e) && MayAct(e) && id.tags != map[]
    requires if w.stored.instanceID != 0 && (!e.get.Works? || w.stored.instanceID in w.cloud.servers.items)
             then !e.get.Works? && e.get.error != NotFound
             else !e.find.Works? && e.find.error != NotFound
    ensures var w' := Reconcile(w, id, e);
            && w'.cloud == w.cloud
            && (e.finalPatchLands ==>
                  && w'.stored.instanceID == w.stored.instanceID && !w'.stored.ready
                  && Says(w'.stored, InstanceReady, false, Conditions.InstanceError)
                  && Says(w'.stored, Ready, false, Conditions.InstanceError))
  {
    var m := WithCredentials(Mark(w.stored, Paused, false, Conditions.NotPaused).(finalizer := true));
    assert EnsureServer(m, w.cloud, id.tags, e).0 == w.cloud && EnsureServer(m, w.cloud, id.tags, e).1.Failed?;
    Finished(m, w.cloud, EnsureServer(m, w.cloud, id.tags, e).1, id, e);
    hide EnsureServer, Finish;
  }

  /** What a pass that acts says. */
  ghost predicate Reaches(m: StackitMachine, m': StackitMachine, c: CloudState, c': CloudState, id: Identity, e: Env)
  {
    && Says(m', BootstrapReady, true, Conditions.Available) && Says(m', CredentialsReady, true, Conditions.Available)
    && if !Obtainable(m, c, id, e) then
         var reason := if m.provisioned then Conditions.InstanceNotFound else Conditions.InstanceError;
         && c' == c && m'.instanceID == m.instanceID && !m'.ready
         && Says(m', InstanceReady, false, reason) && Says(m', Ready, false, reason)
       else
         && m'.instanceID != 0 && m'.instanceID in c'.servers.items
         && m'.providerID == m'.instanceID && m'.provisioned
         && if !e.serverUp then
              !m'.ready && Says(m', InstanceReady, false, Conditions.ServerNotUp) &&
              Says(m', Ready, false, Conditions.ServerNotUp)
            else if !AccessPossible(c, id, e) then !m'.ready && Says(m', Ready, false, Conditions.BastionSSHAccessError)
            else m'.ready && Says(m', InstanceReady, true, Conditions.Available) &&
                 Says(m', Ready, true, Conditions.Available)
  }

  /** One pass of a live machine in any state with at most one tagged server, its calls
      working: whether it ends ready and with which server, or else why not. */
  lemma {:induction false} PassDecides(w: World, id: Identity, e: Env)
    requires id.tags != map[] && id.nodeTags != map[] && ValidStore(w.cloud.servers) && AtMostOne(Own(w, id))
    requires Proceeds(w, e) && MayAct(e) && CallsWork(e) && e.finalPatchLands
    ensures var w' := Reconcile(w, id, e); Reaches(w.stored, w'.stored, w.cloud, w'.cloud, id, e)
  {
    var m := WithCredentials(Mark(w.stored, Paused, false, Conditions.NotPaused).(finalizer := true));
    EnsureServerWorks(m, w.cloud, id, e);
    var (c1, server) := EnsureServer(m, w.cloud, id.tags, e);
    TaggedSame(w.cloud, c1, Groups, id.nodeTags);
    if server.Server? {
      NodeAccessIff(c1, id, server.id, e);
      MachineFrames.NodeAccessFrame(c1, id.nodeTags, server.id, e);
    }
    Finished(m, c1, server, id, e);
    hide EnsureServer, NodeAccess, Tagged, CallsWork, Finish, NetworkGiven, ValidStore, AtMostOne;
  }

  /** The last step says what became of the server. */
  ghost predicate Tells(m: StackitMachine, c: CloudState, server: Ensured, id: Identity, e: Env, p: Pass)
  {
    var m' := p.machine;
    && Says(m', BootstrapReady, true, Conditions.Available) && Says(m', CredentialsReady, true, Conditions.Available)
    && match server
       case Server(x) =>
         var access := NodeAccess(c, id.nodeTags, x, e);
         && m'.instanceID == x && m'.providerID == x && m'.provisioned
         && p.cloud == (if e.serverUp then access.cloud else c)
         && if !e.serverUp then
              !m'.ready && Says(m', InstanceReady, false, Conditions.ServerNotUp) &&
              Says(m', Ready, false, Conditions.ServerNotUp)
            else if access.result.Err? then
              !m'.ready && Says(m', Ready, false, Conditions.BastionSSHAccessError) &&
              Conditions.SameBut(m.conditions, m'.conditions, {Ready})
            else m'.ready && Says(m', InstanceReady, true, Conditions.Available) &&
                 Says(m', Ready, true, Conditions.Available)
       case _ =>
         var reason := if server.InstanceGone? then Conditions.InstanceNotFound else Conditions.InstanceError;
         && p.cloud == c && m'.instanceID == m.instanceID && !m'.ready
         && Says(m', InstanceReady, false, reason) && Says(m', Ready, false, reason)
  }

  lemma Finished(m: StackitMachine, c: CloudState, server: Ensured, id: Identity, e: Env)
    requires Says(m, BootstrapReady, true, Conditions.Available)
    requires Says(m, CredentialsReady, true, Conditions.Available)
    ensures Tells(m, c, server, id, e, Finish(m, c, server, id, e))
  {
    hide NodeAccess;
    match server
    case Server(_) =>
    case _ =>
  }
}
