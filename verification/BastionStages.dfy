/** What each stage of a cluster pass, and a machine pass, does to the bastion: its
    record, its condition and its resources. */
module BastionStages {
  import opened Api
  import opened Labels
  import opened CloudModel
  import opened CloudFrames
  import opened CloudValidity
  import opened Removal
  import opened ClusterModel
  import opened ClusterFrames
  import opened ClusterTeardown
  import ClusterNetwork
  import MachineFrames
  import MachineModel
  import Conditions
  import Zones

  predicate SameBastion(st: Status, st': Status)
  {
    st'.bastion == st.bastion && KnownAbsent(st') == KnownAbsent(st)
  }

  /** Bastion resources and node-SSH groups only went away. */
  predicate Shrinks(spec: Spec, c: CloudState, c': CloudState, id: Identity)
  {
    && BastionShrinks(c, c', BastionTagsOf(spec, id))
    && Tagged(c', Groups, NodeTagsOf(spec, id)) <= Tagged(c, Groups, NodeTagsOf(spec, id))
  }

  lemma SamePartShrinks(spec: Spec, c: CloudState, c': CloudState, id: Identity)
    requires c'.servers == c.servers && c'.addresses == c.addresses && c'.groups == c.groups
    ensures Shrinks(spec, c, c', id) && Shrinks(spec, c', c, id)
  {
    hide BastionTagsOf, NodeTagsOf;
  }

  lemma ShrinksThrough(spec: Spec, c: CloudState, c1: CloudState, c2: CloudState, id: Identity)
    requires Shrinks(spec, c, c1, id) && Shrinks(spec, c1, c2, id)
    ensures Shrinks(spec, c, c2, id)
  {
    hide BastionTagsOf, NodeTagsOf, Tagged;
  }

  // --------------------------------------------------------- the stages of a pass

  lemma MarkingOther(st: Status, t: ConditionType, status: bool, reason: Conditions.Reason)
    requires t != BastionReady
    ensures SameBastion(st, Mark(st, t, status, reason))
  {
  }

  lemma NotReadyOther(st: Status, t: ConditionType, reason: Conditions.Reason)
    requires t != BastionReady
    ensures SameBastion(st, NotReady(st, t, reason))
  {
    hide Mark;
    MarkingOther(st.(ready := false), t, false, reason);
    MarkingOther(Mark(st.(ready := false), t, false, reason), Ready, false, reason);
    assert KnownAbsent(st.(ready := false)) == KnownAbsent(st);
  }

  lemma CredentialsKeep(st: Status, c: CloudState, id: Identity, e: Env)
    ensures SameBastion(st, CredentialStage(st, c, id, e).status)
  {
    hide Zones.RegionZones, Zones.Publish, Mark, NotReady;
    var st1 := st.(zones := Zones.RegionZones(id.region));
    NotReadyOther(st1, CredentialsReady, Conditions.CredentialsInvalid);
    MarkingOther(st1, CredentialsReady, true, Conditions.Available);
    NotReadyOther(Mark(st1, CredentialsReady, true, Conditions.Available), Ready, Conditions.AvailabilityZonesError);
  }

  lemma AfterNetworkKeeps(spec: Spec, st: Status, call: NetworkCall)
    ensures SameBastion(st, AfterNetwork(spec, st, call).status) && AfterNetwork(spec, st, call).cloud == call.cloud
  {
    hide Mark, NotReady;
    match call
    case NetworkMissing(_, reason) => NotReadyOther(st, NetworkReady, reason);
    case NetworkIs(_, network) =>
      MarkingOther(st.(network := network, managed := spec.network == 0), NetworkReady, true, Conditions.Available);
  }

  lemma AfterBalancerKeeps(st: Status, call: BalancerCall, ip: string)
    ensures SameBastion(st, AfterBalancer(st, call, ip).status)
  {
    hide Mark, NotReady, Conditions.IsTrue;
    match call
    case NoBalancer(_) =>
      MarkingOther(st.(endpoint := st.specEndpoint), LoadBalancerReady, true, Conditions.Skipped);
      NotReadyOther(st, LoadBalancerReady, Conditions.EndpointMissing);
    case MachinesUnknown(_) => MarkingOther(st, LoadBalancerReady, false, Conditions.MachineListError);
    case BalancerFailed(_) => NotReadyOther(st, LoadBalancerReady, Conditions.LoadBalancerError);
    case BalancerPending(_, name) => NotReadyOther(st.(balancerID := name), LoadBalancerReady, Conditions.Provisioning);
    case TargetsFailed(_, name) =>
      MarkingOther(Published(st, name, ip), LoadBalancerReady, false, Conditions.LoadBalancerTargetError);
    case BalancerServes(_, name) =>
      MarkingOther(Published(st, name, ip), LoadBalancerReady, true, Conditions.Available);
  }

  lemma FindOrCreateNetworkValid(spec: Spec, st: Status, c: CloudState, id: Identity, e: Env)
    requires Valid(c)
    ensures Valid(CallNetwork(spec, st, c, id, e).cloud)
  {
    hide FindOrCreate, Get, Valid;
    FindOrCreateValid(c, Networks, ClusterTagsOf(spec, id), e.createNetwork);
  }

  lemma BalancersValid(c: CloudState, c': CloudState)
    requires Valid(c) && c' == c.(balancers := c'.balancers)
    ensures Valid(c')
  {
  }

  /** Until the bastion's turn comes, nothing about it changes. */
  lemma BeforeBastion(spec: Spec, st: Status, c: CloudState, id: Identity, e: Env)
    requires Valid(c)
    ensures var s := AtBastion(spec, st, c, id, e);
            && SameBastion(st, s.status) && Valid(s.cloud)
            && s.cloud == c.(networks := s.cloud.networks, balancers := s.cloud.balancers)
  {
    hide CredentialStage, CallNetwork, CallBalancer, AfterNetwork, AfterBalancer, KnownAbsent, Valid;
    var s1 := AtNetwork(st, c, id, e);
    CredentialStageFrame(st, c, id, e);
    var net := CallNetwork(spec, s1.status, s1.cloud, id, e);
    CredentialsKeep(st, c, id, e);
    AfterNetworkKeeps(spec, s1.status, net);
    CallNetworkFrame(spec, s1.status, s1.cloud, id, e);
    FindOrCreateNetworkValid(spec, s1.status, s1.cloud, id, e);
    var s2 := AtBalancer(spec, st, c, id, e);
    var bal := CallBalancer(spec, s2.cloud, id, e);
    CallBalancerFrame(spec, s2.cloud, id, e);
    ClusterNetwork.AfterBalancerCloud(s2.status, bal, e.balancerIP);
    AfterBalancerKeeps(s2.status, bal, e.balancerIP);
    if s2.go { BalancersValid(s2.cloud, AtBastion(spec, st, c, id, e).cloud); }
  }

  lemma RemoveBastionEffect(spec: Spec, st: Status, c: CloudState, id: Identity, e: Env, tolerated: set<ErrorClass>)
    requires Valid(c)
    ensures var c' := RemoveBastion(spec, st, c, id, e, tolerated).cloud;
            Valid(c') && Shrinks(spec, c, c', id)
  {
    RemoveBastionShrinks(spec, st, c, id, e, tolerated);
    RoleTags(spec, id);
    hide DeleteNodeSSH, DeleteBastion, BastionTagsOf, NodeTagsOf, Tagged;
    var nodeTags, tags := NodeTagsOf(spec, id), BastionTagsOf(spec, id);
    var node := DeleteNodeSSH(c, nodeTags, e.deleteNodeSSH);
    DeleteNodeSSHValid(c, nodeTags, e.deleteNodeSSH);
    NodeGroupsShrink(c, nodeTags, e.deleteNodeSSH);
    DeleteBastionValid(node.cloud, tags, st.bastion.ids, e.deleteBastion);
    DeleteBastionShrinks(node.cloud, tags, st.bastion.ids, e.deleteBastion, nodeTags);
  }

  lemma NodeGroupsShrink(c: CloudState, tags: Tags, calls: DeleteNodeSSHCalls)
    requires tags != map[]
    ensures Tagged(DeleteNodeSSH(c, tags, calls).cloud, Groups, tags) <= Tagged(c, Groups, tags)
  {
    hide DeleteNodeSSH;
    DeleteNodeSSHItems(c, tags, calls);
  }

  /** Making a bastion makes no node-SSH group. */
  lemma EnsureKeepsNodeGroups(spec: Spec, c: CloudState, id: Identity, network: Id, calls: EnsureBastionCalls)
    requires Valid(c)
    ensures Tagged(EnsureBastion(c, BastionTagsOf(spec, id), network, calls).cloud, Groups, NodeTagsOf(spec, id)) ==
            Tagged(c, Groups, NodeTagsOf(spec, id))
  {
    var tags, node := BastionTagsOf(spec, id), NodeTagsOf(spec, id);
    RoleTags(spec, id);
    hide FindOrCreate, CreateServerIn, BastionTagsOf, NodeTagsOf, Tagged;
    var group := FindOrCreate(c, Groups, tags, calls.group);
    assert Matches(tags, tags);
    RolesExclude(tags, tags, node);
    CreatesOnly(c, Groups, tags, calls.group, node);
    if group.result.Ok? {
      var server := CreateServerIn(group.cloud, tags, group.result.value, calls.server);
      CreateServerInFrame(group.cloud, tags, group.result.value, calls.server);
      if server.result.Ok? {
        var attach := Attach(server.cloud, server.result.value, group.result.value, calls.attach);
        FindOrCreateFrame(attach.cloud, Addresses, tags, calls.address);
        TaggedSame(group.cloud, FindOrCreate(attach.cloud, Addresses, tags, calls.address).cloud, Groups, node);
        TaggedSame(group.cloud, attach.cloud, Groups, node);
      }
      TaggedSame(group.cloud, server.cloud, Groups, node);
    }
  }

  /** What a find-or-create makes is not found by a selector its tags do not match. */
  lemma CreatesOnly(c: CloudState, kind: Kind, tags: Tags, calls: FindOrCreateCalls, other: Tags)
    requires Valid(c) && !Matches(tags, other)
    ensures Tagged(FindOrCreate(c, kind, tags, calls).cloud, kind, other) == Tagged(c, kind, other)
  {
    hide Find;
  }

  lemma CallBastionCloud(spec: Spec, st: Status, c: CloudState, id: Identity, e: Env)
    requires Valid(c)
    ensures var c' := CallBastion(spec, st, c, id, e).cloud;
            Valid(c') && Tagged(c', Groups, NodeTagsOf(spec, id)) <= Tagged(c, Groups, NodeTagsOf(spec, id))
  {
    hide RemoveBastion, EnsureBastion, KnownAbsent, NeedsRecreate, Valid, BastionTagsOf, NodeTagsOf, Tagged;
    RemoveBastionEffect(spec, st, c, id, e, {});
    RemoveBastionEffect(spec, st, c, id, e, {NotFound});
    EnsureKeepsNodeGroups(spec, c, id, NetworkID(spec, st), e.ensureBastion);
    EnsureBastionValid(c, BastionTagsOf(spec, id), NetworkID(spec, st), e.ensureBastion);
  }

  // ----------------------------------------------------------------- whole passes

  /** What becomes of the bastion in a normal pass that gets that far. */
  ghost function BastionCallOf(spec: Spec, st: Status, c: CloudState, id: Identity, e: Env): BastionCall
  {
    var s := AtBastion(spec, st, c, id, e);
    CallBastion(spec, s.status, s.cloud, id, e)
  }

  lemma NormalCloud(spec: Spec, st: Status, c: CloudState, id: Identity, e: Env)
    requires Valid(c)
    ensures var n := Normal(spec, st, c, id, e);
            && Valid(n.cloud)
            && n.cloud == if AtBastion(spec, st, c, id, e).go then BastionCallOf(spec, st, c, id, e).cloud
                          else AtBastion(spec, st, c, id, e).cloud
  {
    hide Normal, AtBastion, CallBastion, AfterBastion, Valid, NodeTagsOf, Tagged;
    NormalByStages(spec, st, c, id, e);
    BeforeBastion(spec, st, c, id, e);
    var s := AtBastion(spec, st, c, id, e);
    CallBastionCloud(spec, s.status, s.cloud, id, e);
    ClusterNetwork.AfterBastionCloud(s.status, CallBastion(spec, s.status, s.cloud, id, e), e);
  }

  lemma ReadyAtLast(st: Status)
    ensures SameBastion(st, Mark(st.(ready := true, provisioned := true), Ready, true, Conditions.Available))
  {
    MarkingOther(st.(ready := true, provisioned := true), Ready, true, Conditions.Available);
  }

  /** A normal pass does to the bastion what the bastion stage does, if it gets there. */
  lemma NormalBastion(spec: Spec, st: Status, c: CloudState, id: Identity, e: Env)
    requires Valid(c)
    ensures var a := AtBastion(spec, st, c, id, e);
            var n := Normal(spec, st, c, id, e);
            && SameBastion(st, a.status) && Valid(a.cloud) && Valid(n.cloud)
            && a.cloud == c.(networks := a.cloud.networks, balancers := a.cloud.balancers)
            && (!a.go ==> n == a)
            && (a.go ==> n.cloud == CallBastion(spec, a.status, a.cloud, id, e).cloud &&
                         SameBastion(BastionStage(spec, a.status, a.cloud, id, e).status, n.status))
  {
    hide Normal, AtBastion, CallBastion, AfterBastion, Valid;
    NormalByStages(spec, st, c, id, e);
    BeforeBastion(spec, st, c, id, e);
    NormalCloud(spec, st, c, id, e);
    var a := AtBastion(spec, st, c, id, e);
    ReadyAtLast(BastionStage(spec, a.status, a.cloud, id, e).status);
    hide KnownAbsent;
  }

  lemma DropNetworkKeeps(spec: Spec, st: Status, c: CloudState, id: Identity, e: Env)
    requires Valid(c)
    ensures SameBastion(st, DropNetwork(spec, st, c, id, e).status) && Valid(DropNetwork(spec, st, c, id, e).cloud)
  {
    hide NetworkToDelete, CloudModel.Delete, Mark, Valid;
    var target := NetworkToDelete(spec, st, c, id, e);
    if target.Ok? { DeleteValid(c, Networks, target.value, e.deleteNetwork); }
    MarkingOther(st, NetworkReady, false, Conditions.NetworkInUse);
  }

  /** Deletion only takes away; it clears the record or keeps it. */
  predicate Subsides(spec: Spec, st: Status, c: CloudState, s: Stage, id: Identity)
  {
    && Shrinks(spec, c, s.cloud, id) && KnownAbsent(s.status) == KnownAbsent(st)
    && (s.status.bastion == st.bastion || s.status.bastion == NoBastion)
  }

  lemma DropBastionSubsides(spec: Spec, st: Status, c: CloudState, id: Identity, e: Env)
    requires Valid(c)
    ensures var s := DropBastion(spec, st, c, id, e); Valid(s.cloud) && Subsides(spec, st, c, s, id)
  {
    hide RemoveBastion, Valid, BastionTagsOf, NodeTagsOf, Tagged;
    RemoveBastionEffect(spec, st, c, id, e, {NotFound});
  }

  lemma CleanUpSubsides(spec: Spec, st: Status, c: CloudState, id: Identity, e: Env)
    requires Valid(c)
    ensures var s := CleanUp(spec, st, c, id, e); Valid(s.cloud) && Subsides(spec, st, c, s, id)
  {
    hide DropBalancer, DropBastion, DropNetwork, Valid, Shrinks;
    var s1 := DropBalancer(st, c, e);
    ClusterNetwork.DropBalancerFrame(st, c, e);
    BalancersValid(c, s1.cloud);
    SamePartShrinks(spec, c, s1.cloud, id);
    if s1.go {
      var s2 := DropBastion(spec, s1.status, s1.cloud, id, e);
      DropBastionSubsides(spec, s1.status, s1.cloud, id, e);
      ShrinksThrough(spec, c, s1.cloud, s2.cloud, id);
      if s2.go {
        var s3 := DropNetwork(spec, s2.status, s2.cloud, id, e);
        DropNetworkFrame(spec, s2.status, s2.cloud, id, e);
        DropNetworkKeeps(spec, s2.status, s2.cloud, id, e);
        SamePartShrinks(spec, s2.cloud, s3.cloud, id);
        ShrinksThrough(spec, c, s2.cloud, s3.cloud, id);
      }
    }
  }

  lemma DeletionSubsides(spec: Spec, st: Status, c: CloudState, id: Identity, e: Env)
    requires Valid(c)
    ensures var s := ClusterModel.Delete(spec, st, c, id, e); Valid(s.cloud) && Subsides(spec, st, c, s, id)
  {
    hide CleanUp, Mark, Valid, Shrinks;
    CleanUpSubsides(spec, st, c, id, e);
    SamePartShrinks(spec, c, c, id);
    MarkingOther(st, CredentialsReady, false, Conditions.CredentialsInvalid);
  }

  function Unpaused(w: World): Status { Mark(w.stored.status, Paused, false, Conditions.NotPaused) }

  /** The pass gets as far as the bastion's turn. */
  ghost predicate ReachesBastion(w: World, id: Identity, e: Env)
  {
    && !Gone(w.stored) && e.ownersFound && !e.paused && !w.stored.deleting
    && (w.stored.finalizer || e.finalizerPatchLands)
    && AtBastion(w.stored.spec, Unpaused(w), w.cloud, id, e).go
  }

  /** A pass that does not reach it leaves record and resources alone or, when it
      deletes, takes away. */
  lemma {:induction false} NotReached(w: World, id: Identity, e: Env)
    requires Valid(w.cloud) && !ReachesBastion(w, id, e)
    ensures var w' := Reconcile(w, id, e);
            && w'.stored.spec == w.stored.spec && Valid(w'.cloud) && Shrinks(w.stored.spec, w.cloud, w'.cloud, id)
            && KnownAbsent(w'.stored.status) == KnownAbsent(w.stored.status)
            && (w'.stored.status.bastion == w.stored.status.bastion || w'.stored.status.bastion == NoBastion)
  {
    var spec, st, st' := w.stored.spec, w.stored.status, Unpaused(w);
    MarkingOther(st, Paused, false, Conditions.NotPaused);
    MarkingOther(st, Paused, true, Conditions.IsPaused);
    SamePartShrinks(spec, w.cloud, w.cloud, id);
    DeletionSubsides(spec, st', w.cloud, id, e);
    NormalBastion(spec, st', w.cloud, id, e);
    SamePartShrinks(spec, w.cloud, AtBastion(spec, st', w.cloud, id, e).cloud, id);
    hide Normal, AtBastion, CallBastion, BastionStage, ClusterModel.Delete, Mark, Valid, Shrinks, KnownAbsent;
  }

  /** A pass that reaches it: the cloud is what the bastion stage leaves, and the
      persisted record and condition are that stage's or, if the patch is lost, the
      old ones. */
  lemma {:induction false} Reached(w: World, id: Identity, e: Env)
    requires Valid(w.cloud) && ReachesBastion(w, id, e)
    ensures var a := AtBastion(w.stored.spec, Unpaused(w), w.cloud, id, e);
            var b := BastionStage(w.stored.spec, a.status, a.cloud, id, e);
            var w' := Reconcile(w, id, e);
            && SameBastion(w.stored.status, a.status) && Valid(a.cloud)
            && a.cloud == w.cloud.(networks := a.cloud.networks, balancers := a.cloud.balancers)
            && w'.stored.spec == w.stored.spec && w'.cloud == b.cloud && Valid(w'.cloud)
            && SameBastion(if e.finalPatchLands then b.status else w.stored.status, w'.stored.status)
  {
    var spec, st, st' := w.stored.spec, w.stored.status, Unpaused(w);
    MarkingOther(st, Paused, false, Conditions.NotPaused);
    NormalBastion(spec, st', w.cloud, id, e);
    var a := AtBastion(spec, st', w.cloud, id, e);
    ClusterNetwork.AfterBastionCloud(a.status, CallBastion(spec, a.status, a.cloud, id, e), e);
    hide Normal, AtBastion, CallBastion, AfterBastion, Mark, Valid, KnownAbsent;
  }

  // --------------------------------------------------------------- machine passes

  lemma ServerFor(m: MachineModel.StackitMachine, c: CloudState, tags: Tags, e: MachineModel.Env, bastion: Tags)
    requires Valid(c) && !Matches(tags, bastion)
    ensures var c' := MachineModel.EnsureServer(m, c, tags, e).0;
            Valid(c') && Tagged(c', Servers, bastion) == Tagged(c, Servers, bastion)
  {
    hide Find, Get, FindOrCreate, Valid, Tagged;
    FindOrCreateValid(c, Servers, tags, e.create);
    CreatesOnly(c, Servers, tags, e.create, bastion);
  }

  lemma AccessFor(c: CloudState, node: Tags, server: Id, e: MachineModel.Env, bastion: Tags)
    requires Valid(c) && !Matches(node, bastion)
    ensures var c' := MachineModel.NodeAccess(c, node, server, e).cloud;
            Valid(c') && Tagged(c', Groups, bastion) == Tagged(c, Groups, bastion)
  {
    hide FindOrCreate, Valid, Tagged;
    EnsureNodeSSHValid(c, node, server, e.cluster.bastionGroup, e.nodeSSH);
    CreatesOnly(c, Groups, node, e.nodeSSH.group, bastion);
    var group := FindOrCreate(c, Groups, node, e.nodeSSH.group);
    if group.result.Ok? {
      TaggedSame(group.cloud, Attach(group.cloud, server, group.result.value, e.nodeSSH.attach).cloud, Groups, bastion);
    }
  }

  lemma MachineNormal(m: MachineModel.StackitMachine, c: CloudState, id: MachineModel.Identity, e: MachineModel.Env,
                      bastion: Tags)
    requires Valid(c) && !Matches(id.tags, bastion) && !Matches(id.nodeTags, bastion)
    ensures var c' := MachineModel.Normal(m, c, id, e).cloud;
            && Valid(c') && Tagged(c', Servers, bastion) == Tagged(c, Servers, bastion)
            && Tagged(c', Groups, bastion) == Tagged(c, Groups, bastion)
  {
    hide MachineModel.EnsureServer, MachineModel.Finish, MachineModel.StopsEarly, MachineModel.NodeAccess,
         MachineModel.WithCredentials, Valid, Tagged, Matches;
    var m1 := MachineModel.WithCredentials(m);
    var (c1, server) := MachineModel.EnsureServer(m1, c, id.tags, e);
    ServerFor(m1, c, id.tags, e, bastion);
    MachineFrames.EnsureServerFrame(m1, c, id.tags, e);
    TaggedSame(c, c1, Groups, bastion);
    MachineFrames.FinishFrame(m1, c1, server, id, e);
    if server.Server? {
      AccessFor(c1, id.nodeTags, server.id, e, bastion);
      MachineFrames.NodeAccessFrame(c1, id.nodeTags, server.id, e);
      TaggedSame(c1, MachineModel.NodeAccess(c1, id.nodeTags, server.id, e).cloud, Servers, bastion);
    }
  }

  lemma MachineDeletion(m: MachineModel.StackitMachine, c: CloudState, id: MachineModel.Identity, e: MachineModel.Env,
                        bastion: Tags)
    requires Valid(c)
    ensures var c' := MachineModel.Delete(m, c, id, e).cloud;
            Valid(c') && Tagged(c', Servers, bastion) <= Tagged(c, Servers, bastion)
  {
    hide ResolveID, CloudModel.Delete, MachineModel.Mark, Valid, Tagged;
    var server := ResolveID(c, Servers, m.instanceID, id.tags, e.find);
    if server.Ok? {
      DeleteValid(c, Servers, server.value, e.delete);
      DeleteIfThereItems(c, Servers, server.value, e.delete);
      TaggedAfter(c, DeleteIfThere(c, Servers, server.value, e.delete).cloud, Servers, server.value, bastion);
    }
  }

  /** A machine pass makes no bastion resource, and no group at all when the cluster
      has no bastion group to offer. */
  lemma MachinePass(w: MachineModel.World, id: MachineModel.Identity, e: MachineModel.Env, bastion: Tags)
    requires Valid(w.cloud) && !Matches(id.tags, bastion) && !Matches(id.nodeTags, bastion)
    ensures var c' := MachineModel.Reconcile(w, id, e).cloud; Valid(c') && BastionShrinks(w.cloud, c', bastion)
  {
    hide MachineModel.Normal, MachineModel.Delete, Valid, Tagged, Matches;
    MachineFrames.MachinePassFrame(w, id, e);
    var m := MachineModel.Mark(w.stored, MachineModel.Paused, false, Conditions.NotPaused);
    MachineNormal(m.(finalizer := true), w.cloud, id, e, bastion);
    MachineDeletion(m, w.cloud, id, e, bastion);
    var c' := MachineModel.Reconcile(w, id, e).cloud;
    TaggedSame(w.cloud, c', Addresses, bastion);
    MachineFrames.DeletePassFrame(m, w.cloud, id, e);
    TaggedSame(w.cloud, MachineModel.Delete(m, w.cloud, id, e).cloud, Groups, bastion);
  }
}
