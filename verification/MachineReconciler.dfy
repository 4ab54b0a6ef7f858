/** StackitMachineReconciler: the pass as the controller performs it, on the
    in-memory copy of the object, with early returns and a deferred patch. */
module MachineReconciler {
  import opened Api
  import opened CloudModel
  import opened Conditions
  import opened MachineModel
  import CloudClient
  import MachineGates
  import Zones

  class Reconciler {
    const identity: Identity
    const cloud: CloudClient.SDKClient
    var stored: StackitMachine // what the API server holds
    var obj: StackitMachine // the copy one pass mutates
    ghost var abandoned: bool

    ghost function View(): World
      reads this, cloud
    {
      World(stored, cloud.state, abandoned)
    }

    constructor (identity: Identity, cloud: CloudClient.SDKClient, stored: StackitMachine)
      ensures this.identity == identity && this.cloud == cloud
      ensures View() == World(stored, cloud.state, false)
    {
      this.identity, this.cloud := identity, cloud;
      this.stored, this.obj, this.abandoned := stored, stored, false;
    }

    // ------------------------------------------------------------- MachineScope

    method Set(t: ConditionType, status: bool, reason: Reason)
      modifies this`obj
      ensures obj == Mark(old(obj), t, status, reason)
    {
      var conditions := SetConditions(obj.conditions, [t], status, reason);
      SetAllOfFew(obj.conditions, t, t, status, reason);
      obj := obj.(conditions := conditions);
    }

    /** For the condition t and for Ready. */
    method SetNotReady(t: ConditionType, reason: Reason)
      modifies this`obj
      ensures obj == NotReady(old(obj), t, reason)
    {
      obj := obj.(ready := false);
      var conditions := SetConditions(obj.conditions, [t, Ready], false, reason);
      SetAllOfFew(obj.conditions, t, Ready, false, reason);
      obj := obj.(conditions := conditions);
    }

    method SetReady()
      modifies this`obj
      ensures obj == IsReady(old(obj))
    {
      obj := obj.(ready := true);
      Set(InstanceReady, true, Available);
      Set(Ready, true, Available);
    }

    method SetInstance(server: Id)
      modifies this`obj
      ensures obj == WithInstance(old(obj), server)
    {
      obj := obj.(instanceID := server);
      obj := obj.(providerID := server);
      obj := obj.(provisioned := true);
    }

    method ClearInstance()
      modifies this`obj
      ensures obj == old(obj).(instanceID := 0)
    {
      obj := obj.(instanceID := 0);
    }

    // ------------------------------------------------------------------- steps

    method EnsureServerExists(e: Env) returns (r: Ensured)
      modifies cloud
      ensures (cloud.state, r) == EnsureServer(obj, old(cloud.state), identity.tags, e)
    {
      if obj.instanceID != 0 {
        var recorded := cloud.GetByID(Servers, obj.instanceID, e.get);
        if recorded.Ok? { return Server(recorded.value); }
        if recorded.error != NotFound { return Failed(recorded.error); }
      }
      var tagged := cloud.FindByTags(Servers, identity.tags, e.find);
      if tagged.Ok? { return Server(tagged.value); }
      if tagged.error != NotFound { return Failed(tagged.error); }
      if obj.provisioned { return InstanceGone; }
      if NetworkID(e) == 0 { return Failed(Transient); }
      var created := cloud.EnsureByTags(Servers, identity.tags, e.create);
      if created.Err? { return Failed(created.error); }
      return Server(created.value);
    }

    method ReconcileBastionNodeSSHAccess(server: Id, e: Env) returns (r: Result<()>)
      modifies cloud
      ensures Op(cloud.state, r) == NodeAccess(old(cloud.state), identity.nodeTags, server, e)
    {
      if !e.cluster.bastionEnabled { return Ok(()); }
      if e.cluster.bastionGroup == 0 { return Err(Transient); }
      if server == 0 { return Err(Transient); }
      var group := cloud.EnsureNodeSSHAccess(identity.nodeTags, server, e.cluster.bastionGroup, e.nodeSSH);
      if group.Err? { return Err(group.error); }
      return Ok(());
    }

    /** reconcileNormal once the finalizer is persisted. */
    method ReconcileNormal(e: Env)
      modifies this`obj, cloud
      ensures Pass(obj, cloud.state) == Normal(old(obj), old(cloud.state), identity, e)
      // nothing is made before the cluster, the zones, bootstrap data and credentials allow it
      ensures !MachineGates.MayAct(e) ==>
                cloud.state == old(cloud.state) && MachineGates.Blames(old(obj), obj, e)
    {
      if !MachineGates.MayAct(e) { MachineGates.StoppedSays(obj, e); }
      if !e.cluster.ready {
        SetNotReady(Ready, InfrastructureNotReady);
        return;
      }
      var zoneOk := Zones.ValidateMachineAvailabilityZone(e.cluster.zones, e.zone, e.failureDomain);
      if !zoneOk {
        SetNotReady(InstanceReady, InvalidFailureDomain);
        return;
      }
      if !e.bootstrap.BootstrapAvailable? {
        var reason := if e.bootstrap.BootstrapUnusable? then BootstrapInvalid else BootstrapNotReady;
        Set(BootstrapReady, false, reason);
        Set(Ready, false, reason);
        return;
      }
      Set(BootstrapReady, true, Available);
      if !e.client.Built? {
        Set(CredentialsReady, false, CredentialsInvalid);
        Set(Ready, false, CredentialsInvalid);
        return;
      }
      Set(CredentialsReady, true, Available);

      var server := EnsureServerExists(e);
      if server.InstanceGone? {
        SetNotReady(InstanceReady, InstanceNotFound);
        return;
      }
      if server.Failed? {
        SetNotReady(InstanceReady, InstanceError);
        return;
      }
      SetInstance(server.id);
      if !e.serverUp {
        SetNotReady(InstanceReady, ServerNotUp);
        return;
      }
      var access := ReconcileBastionNodeSSHAccess(server.id, e);
      if access.Err? {
        SetNotReady(Ready, BastionSSHAccessError);
        return;
      }
      SetReady();
    }

    method ReconcileDelete(e: Env)
      modifies this`obj, cloud
      ensures Pass(obj, cloud.state) == MachineModel.Delete(old(obj), old(cloud.state), identity, e)
    {
      if e.client.SecretGone? {
        obj := obj.(finalizer := false);
        return;
      }
      if e.client.BuildFailed? {
        Set(CredentialsReady, false, CredentialsInvalid);
        return;
      }
      var server := cloud.ResolveRecorded(Servers, obj.instanceID, identity.tags, e.find);
      if server.Err? { return; }
      if server.value != 0 {
        var deleted := cloud.DeleteByID(Servers, server.value, e.delete);
        if deleted.Err? && deleted.error != NotFound { return; }
        ClearInstance();
      }
      obj := obj.(finalizer := false);
    }

    /** Reconcile, with the deferred PatchObject at its end. */
    method Run(e: Env)
      modifies this, cloud
      ensures View() == MachineModel.Reconcile(old(View()), identity, e)
    {
      if Gone(stored) || !e.ownersFound { return; }
      obj := stored;
      if e.paused {
        Set(Paused, true, IsPaused);
      } else {
        Set(Paused, false, NotPaused);
        if obj.deleting {
          ReconcileDelete(e);
          abandoned := abandoned || (e.finalPatchLands && e.client.SecretGone?);
        } else {
          var persisted := true;
          if !obj.finalizer {
            obj := obj.(finalizer := true);
            if e.finalizerPatchLands { stored := obj; } else { persisted := false; }
          }
          if persisted { ReconcileNormal(e); }
        }
      }
      if e.finalPatchLands { stored := obj; }
    }
  }
}
