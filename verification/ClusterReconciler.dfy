/** StackitClusterReconciler: the pass as the controller performs it, on the
    in-memory copy of the object, with early returns and a deferred patch. */
module ClusterReconciler {
  import opened Api
  import opened Labels
  import opened CloudModel
  import opened Conditions
  import opened ClusterModel
  import AddressPlan
  import CloudClient
  import ClusterGates
  import TargetPool
  import Zones

  class Reconciler {
    const identity: Identity
    const cloud: CloudClient.SDKClient
    var stored: StackitCluster // what the API server holds
    var spec: Spec // the copy one pass reads
    var status: Status // and mutates
    var finalizer: bool
    ghost var abandoned: bool

    ghost function View(): World
      reads this, cloud
    {
      World(stored, cloud.state, abandoned)
    }

    ghost function At(go: bool): Stage
      reads this, cloud
    {
      Stage(status, cloud.state, go)
    }

    constructor (identity: Identity, cloud: CloudClient.SDKClient, stored: StackitCluster)
      ensures this.identity == identity && this.cloud == cloud
      ensures View() == World(stored, cloud.state, false)
    {
      this.identity, this.cloud := identity, cloud;
      this.stored, this.abandoned := stored, false;
      this.spec, this.status, this.finalizer := stored.spec, stored.status, stored.finalizer;
    }

    // ------------------------------------------------------------- ClusterScope

    method Set(t: ConditionType, holds: bool, reason: Reason)
      modifies this`status
      ensures status == Mark(old(status), t, holds, reason)
    {
      var conditions := SetConditions(status.conditions, [t], holds, reason);
      SetAllOfFew(status.conditions, t, t, holds, reason);
      status := status.(conditions := conditions);
    }

    /** For the condition t and for Ready. */
    method SetNotReady(t: ConditionType, reason: Reason)
      modifies this`status
      ensures status == NotReady(old(status), t, reason)
    {
      status := status.(ready := false);
      var conditions := SetConditions(status.conditions, [t, Ready], false, reason);
      SetAllOfFew(status.conditions, t, Ready, false, reason);
      status := status.(conditions := conditions);
    }

    method SetReady()
      modifies this`status
      ensures status == Mark(old(status).(ready := true, provisioned := true), Ready, true, Available)
    {
      status := status.(ready := true);
      status := status.(provisioned := true);
      Set(Ready, true, Available);
    }

    // ------------------------------------------------------------------ network

    method EnsureNetwork(e: Env) returns (go: bool)
      modifies this`status, cloud
      ensures At(go) == NetworkStage(spec, old(status), old(cloud.state), identity, e)
    {
      if spec.network != 0 {
        go := GetUnmanagedNetwork(e);
      } else {
        go := EnsureManagedNetwork(e);
      }
    }

    method GetUnmanagedNetwork(e: Env) returns (go: bool)
      requires spec.network != 0
      modifies this`status
      ensures At(go) == NetworkStage(spec, old(status), cloud.state, identity, e)
    {
      var network := cloud.GetByID(Networks, spec.network, e.getNetwork);
      if network.Err? {
        SetNotReady(NetworkReady, NetworkNotFound);
        return false;
      }
      status := status.(network := network.value, managed := false);
      Set(NetworkReady, true, Available);
      return true;
    }

    method EnsureManagedNetwork(e: Env) returns (go: bool)
      requires spec.network == 0
      modifies this`status, cloud
      ensures At(go) == NetworkStage(spec, old(status), old(cloud.state), identity, e)
    {
      var network: Id := 0;
      var found := false;
      if status.network != 0 {
        var got := cloud.GetByID(Networks, status.network, e.getNetwork);
        if got.Err? && got.error != NotFound {
          SetNotReady(NetworkReady, NetworkError);
          return false;
        }
        if got.Ok? { network, found := got.value, true; }
      }
      if !found {
        var tags := BuildClusterTags(identity.name, identity.namespace, spec.labels);
        var made := cloud.EnsureByTags(Networks, tags, e.createNetwork);
        if made.Err? {
          SetNotReady(NetworkReady, NetworkCreateError);
          return false;
        }
        network := made.value;
      }
      status := status.(network := network, managed := true);
      Set(NetworkReady, true, Available);
      return true;
    }

    // ------------------------------------------------------------ load balancer

    /** GetFilteredMachinesForCluster with the control-plane and active filters, then APIServerTargets. */
    method BuildTargets(e: Env) returns (targets: seq<TargetPool.Target>)
      requires TargetPool.UniqueNames(TargetPool.EligibleOf(e.machines, identity.clusterName))
      ensures targets == Desired(identity, e)
      ensures TargetPool.FrontsControlPlane(targets, e.machines, identity.clusterName, e.sha)
    {
      var eligible := TargetPool.EligibleOf(e.machines, identity.clusterName);
      var refs: seq<Option<TargetPool.Machine>> := [];
      for i := 0 to |eligible|
        invariant |refs| == i && TargetPool.Present(refs) == eligible[..i]
      {
        var more := refs + [Some(eligible[i])];
        assert more[..|more| - 1] == refs;
        refs := more;
      }
      assert eligible[..|eligible|] == eligible;
      targets := TargetPool.APIServerTargets(refs, e.sha);
      TargetPool.DesiredFrontsControlPlane(e.machines, identity.clusterName, e.sha);
    }

    method ReconcileLoadBalancer(e: Env) returns (go: bool)
      requires TargetPool.UniqueNames(TargetPool.EligibleOf(e.machines, identity.clusterName))
      modifies this`status, cloud
      ensures At(go) == BalancerStage(spec, old(status), old(cloud.state), identity, e)
    {
      if !spec.balancerEnabled {
        if status.specEndpoint != "" {
          status := status.(endpoint := status.specEndpoint);
          Set(LoadBalancerReady, true, Skipped);
          return true;
        }
        SetNotReady(LoadBalancerReady, EndpointMissing);
        return false;
      }
      if !e.machinesListed {
        Set(LoadBalancerReady, false, MachineListError);
        return false;
      }
      var targets := BuildTargets(e);
      var seed := targets;
      if |seed| == 0 {
        var ip := AddressPlan.BootstrapTargetIP(e.prefixes);
        seed := [TargetPool.Target("capi-bootstrap-placeholder", AddressPlan.Dotted(ip))];
      }
      var made := cloud.EnsureAPIServerLoadBalancer(BalancerName(identity), e.balancerLabels, APIServerPort, seed,
                                                    e.balancer);
      if made.Err? {
        SetNotReady(LoadBalancerReady, LoadBalancerError);
        return false;
      }
      go := ReconcileTargets(made.value, targets, e);
    }

    method ReconcileTargets(name: string, targets: seq<TargetPool.Target>, e: Env) returns (go: bool)
      requires targets == Desired(identity, e)
      modifies this`status, cloud
      ensures At(go) == AfterBalancer(old(status), if |e.balancerIP| == 0 then BalancerPending(old(cloud.state), name)
                                                else CallTargets(old(cloud.state), name, identity, e), e.balancerIP)
    {
      hide SetTargets, Desired, IsTrue;
      status := status.(balancerID := name);
      if |e.balancerIP| == 0 {
        SetNotReady(LoadBalancerReady, Provisioning);
        return false;
      }
      var isLBReady := IsTrue(status.conditions, LoadBalancerReady) && status.endpoint == e.balancerIP;
      status := status.(specEndpoint := e.balancerIP, endpoint := e.balancerIP);
      if |targets| > 0 {
        var updated := cloud.SetAPIServerLoadBalancerTargets(status.balancerID, APIServerPort, targets, e.setTargets);
        if updated.Err? {
          Set(LoadBalancerReady, false, LoadBalancerTargetError);
          return false;
        }
      }
      if !isLBReady { Set(LoadBalancerReady, true, Available); }
      return true;
    }

    // ------------------------------------------------------------------ bastion

    method RemoveBastionResources(e: Env, tolerated: set<ErrorClass>) returns (r: Result<()>)
      modifies cloud
      ensures Op(cloud.state, r) == RemoveBastion(spec, status, old(cloud.state), identity, e, tolerated)
    {
      var tags := BuildClusterTags(identity.name, identity.namespace, spec.labels);
      var nodeTags, bastionTags := tags[ResourceRole := RoleNodeSSH], tags[ResourceRole := RoleBastion];
      assert nodeTags == NodeTagsOf(spec, identity) && bastionTags == BastionTagsOf(spec, identity);
      var node := cloud.DeleteNodeSSHAccess(nodeTags, e.deleteNodeSSH);
      if node.Err? && node.error !in tolerated { return node; }
      var bastion := cloud.DeleteBastionHost(bastionTags, status.bastion.ids, e.deleteBastion);
      if bastion.Err? && bastion.error !in tolerated { return bastion; }
      return Ok(());
    }

    method ReconcileBastion(e: Env) returns (go: bool)
      modifies this`status, cloud
      ensures At(go) == BastionStage(spec, old(status), old(cloud.state), identity, e)
    {
      if !spec.bastionEnabled {
        if !(BastionReady in status.conditions) || status.conditions[BastionReady].reason != Skipped {
          var removed := RemoveBastionResources(e, {});
          if removed.Err? {
            SetNotReady(BastionReady, BastionError);
            return false;
          }
          status := status.(bastion := NoBastion);
        }
        Set(BastionReady, true, Skipped);
        return true;
      }
      if !spec.bastionValid {
        SetNotReady(BastionReady, InvalidBastionSpec);
        return false;
      }
      if !e.cloudInitFound {
        SetNotReady(BastionReady, CloudInitRefError);
        return false;
      }
      go := EnsureOrRecreateBastion(e);
    }

    method EnsureOrRecreateBastion(e: Env) returns (go: bool)
      requires spec.bastionEnabled && spec.bastionValid && e.cloudInitFound
      modifies this`status, cloud
      ensures At(go) == BastionStage(spec, old(status), old(cloud.state), identity, e)
      // a recorded bastion of another cloud-init is cleared, or kept as long as it cannot go
      ensures ClusterGates.Recorded(old(status).bastion) && old(status).bastion.hash != e.cloudInitHash ==>
                !go && !status.ready && status.bastion in {NoBastion, old(status).bastion}
    {
      hide RemoveBastion, EnsureBastion;
      if NeedsRecreate(status, e) {
        var removed := RemoveBastionResources(e, {NotFound});
        if removed.Err? {
          SetNotReady(BastionReady, BastionError);
          return false;
        }
        status := status.(bastion := NoBastion);
        SetNotReady(BastionReady, Recreating);
        return false;
      }
      go := EnsureBastionUp(e);
    }

    method EnsureBastionUp(e: Env) returns (go: bool)
      requires spec.bastionEnabled && spec.bastionValid && e.cloudInitFound && !NeedsRecreate(status, e)
      modifies this`status, cloud
      ensures At(go) == BastionStage(spec, old(status), old(cloud.state), identity, e)
    {
      hide RemoveBastion, EnsureBastion, NeedsRecreate;
      var tags := BuildClusterTags(identity.name, identity.namespace, spec.labels);
      var made := cloud.EnsureBastionHost(tags[ResourceRole := RoleBastion], NetworkID(spec, status), e.ensureBastion);
      if made.Err? {
        SetNotReady(BastionReady, BastionError);
        return false;
      }
      go := RecordBastion(made.value, e);
    }

    method RecordBastion(ids: BastionIDs, e: Env) returns (go: bool)
      modifies this`status
      ensures At(go) == AfterBastion(old(status), BastionIs(cloud.state, ids), e)
    {
      status := status.(bastion := BastionStatus(ids, e.bastionIP, e.cloudInitHash));
      if !e.bastionUp {
        SetNotReady(BastionReady, ServerNotUp);
        return false;
      }
      if |e.bastionIP| == 0 {
        SetNotReady(BastionReady, Provisioning);
        return false;
      }
      Set(BastionReady, true, Available);
      return true;
    }

    // ------------------------------------------------------------------- passes

    method BuildClientAndZones(e: Env) returns (go: bool)
      modifies this`status
      ensures At(go) == CredentialStage(old(status), cloud.state, identity, e)
    {
      status := status.(zones := Zones.RegionZones(identity.region));
      if !e.client.Built? {
        SetNotReady(CredentialsReady, CredentialsInvalid);
        return false;
      }
      Set(CredentialsReady, true, Available);
      if !e.listZones.Works? {
        SetNotReady(Ready, AvailabilityZonesError);
        return false;
      }
      var zones := Zones.FailureDomainsFromZones(identity.region, e.zones);
      status := status.(zones := zones);
      return true;
    }

    /** reconcileNormal once the finalizer is persisted. */
    method ReconcileNormal(e: Env) returns (done: bool)
      requires TargetPool.UniqueNames(TargetPool.EligibleOf(e.machines, identity.clusterName))
      modifies this`status, cloud
      ensures At(done) == Normal(spec, old(status), old(cloud.state), identity, e)
    {
      done := BuildClientAndZones(e);
      if !done { return; }
      done := EnsureNetwork(e);
      if !done { return; }
      done := ReconcileLoadBalancer(e);
      if !done { return; }
      done := ReconcileBastion(e);
      if !done { return; }
      SetReady();
    }

    method DeleteLoadBalancer(e: Env) returns (go: bool)
      modifies this`status, cloud
      ensures At(go) == DropBalancer(old(status), old(cloud.state), e)
    {
      var name := cloud.ResolveLoadBalancerID(status.balancerID, e.balancerLabels, e.balancer.list,
                                              e.balancer.serviceOff);
      if name.Err? { return false; }
      if name.value != "" {
        var deleted := cloud.DeleteAPIServerLoadBalancer(name.value, e.deleteBalancer);
        if deleted.Err? && deleted.error != NotFound { return false; }
        status := status.(balancerID := "");
      }
      return true;
    }

    method DeleteManagedNetwork(e: Env) returns (go: bool)
      modifies this`status, cloud
      ensures At(go) == DropNetwork(spec, old(status), old(cloud.state), identity, e)
    {
      if spec.network != 0 { return true; }
      var tags := BuildClusterTags(identity.name, identity.namespace, spec.labels);
      var network := cloud.ResolveRecorded(Networks, status.network, tags, e.findNetwork);
      if network.Err? { return false; }
      if network.value != 0 {
        var deleted := cloud.DeleteByID(Networks, network.value, e.deleteNetwork);
        if deleted.Err? && deleted.error != NotFound {
          if deleted.error == Conflict { Set(NetworkReady, false, NetworkInUse); }
          return false;
        }
        status := status.(network := 0, managed := false);
      }
      return true;
    }

    method ReconcileDelete(e: Env) returns (done: bool)
      modifies this`status, cloud
      ensures At(done) == ClusterModel.Delete(spec, old(status), old(cloud.state), identity, e)
      // every Machine has to go first, even when the credentials Secret is gone
      ensures !e.machinesListed || e.machines != [] ==>
                !done && status == old(status) && cloud.state == old(cloud.state)
    {
      if !e.machinesListed || |e.machines| > 0 { return false; }
      if e.client.SecretGone? { return true; }
      if e.client.BuildFailed? {
        Set(CredentialsReady, false, CredentialsInvalid);
        return false;
      }
      done := DeleteLoadBalancer(e);
      if !done { return; }
      var removed := RemoveBastionResources(e, {NotFound});
      if removed.Err? { return false; }
      if HasBastionStatus(status.bastion) { status := status.(bastion := NoBastion); }
      done := DeleteManagedNetwork(e);
    }

    /** Reconcile, with the deferred PatchObject at its end. Machine names are unique
        within a namespace. */
    method Run(e: Env)
      requires TargetPool.UniqueNames(TargetPool.EligibleOf(e.machines, identity.clusterName))
      modifies this, cloud
      ensures View() == ClusterModel.Reconcile(old(View()), identity, e)
    {
      if Gone(stored) || !e.ownersFound { return; }
      spec, status, finalizer := stored.spec, stored.status, stored.finalizer;
      if e.paused {
        Set(Paused, true, IsPaused);
      } else {
        Set(Paused, false, NotPaused);
        if stored.deleting {
          var done := ReconcileDelete(e);
          if done { finalizer := false; }
          abandoned := abandoned || (e.finalPatchLands && done && e.client.SecretGone?);
        } else {
          var persisted := true;
          if !finalizer {
            finalizer := true;
            if e.finalizerPatchLands { Patch(); } else { persisted := false; }
          }
          if persisted { var _ := ReconcileNormal(e); }
        }
      }
      if e.finalPatchLands { Patch(); }
    }

    /** PatchObject, when it lands. */
    method Patch()
      modifies this`stored
      ensures stored == old(stored).(finalizer := finalizer, status := status)
    {
      stored := stored.(finalizer := finalizer, status := status);
    }
  }
}
