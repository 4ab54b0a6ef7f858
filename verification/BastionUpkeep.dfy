/** Through every pass of both controllers the cloud stays tidy and the recorded
    bastion group stays the cluster's own. */
module BastionUpkeep {
  import opened Api
  import opened Labels
  import opened CloudModel
  import opened CloudFrames
  import opened CloudValidity
  import opened Removal
  import opened ClusterModel
  import opened ClusterFrames
  import opened ClusterTeardown
  import opened BastionMaking
  import opened BastionStages
  import opened BastionCover
  import opened TidyCloud
  import ClusterNetwork
  import MachineFrames
  import MachineModel
  import Conditions

  function OwnerOf(id: Identity): Owner { Owner(id.clusterName, id.namespace) }

  /** A recorded group that still exists carries the bastion's tags. */
  predicate GroupKept(g: Id, c: CloudState, b: Tags)
  {
    g in c.groups.items ==> Matches(c.groups.items[g], b)
  }

  /** ids is the record of the bastion: handed out some time, its group still its own. */
  ghost predicate Held(spec: Spec, ids: BastionIDs, c: CloudState, id: Identity)
  {
    && Tidy(c, BastionTagsOf(spec, id), NodeTagsOf(spec, id), OwnerOf(id))
    && IdsKnown(c, ids) && GroupKept(ids.group, c, BastionTagsOf(spec, id))
  }

  /** No ID counter went back. */
  predicate Older(c: CloudState, c': CloudState)
  {
    c.servers.nextID <= c'.servers.nextID && c.addresses.nextID <= c'.addresses.nextID && Aged(c.groups, c'.groups)
  }

  lemma OlderKept(ids: BastionIDs, c: CloudState, c': CloudState, b: Tags)
    requires IdsKnown(c, ids) && GroupKept(ids.group, c, b) && Older(c, c')
    ensures IdsKnown(c', ids) && GroupKept(ids.group, c', b)
  {
  }

  lemma ReducedHeld(spec: Spec, ids: BastionIDs, c: CloudState, c': CloudState, id: Identity)
    requires Held(spec, ids, c, id) && Reduced(c, c') && Valid(c')
    ensures Held(spec, ids, c', id)
  {
    ReducedTidy(c, c', BastionTagsOf(spec, id), NodeTagsOf(spec, id), OwnerOf(id));
    hide Tidy, BastionTagsOf, NodeTagsOf, Matches;
  }

  lemma NoneHeld(spec: Spec, ids: BastionIDs, c: CloudState, id: Identity)
    requires Held(spec, ids, c, id)
    ensures Held(spec, BastionIDs(0, 0, 0), c, id)
  {
    hide BastionTagsOf, NodeTagsOf, Unique, Attached, Matches;
  }

  lemma RolesOf(spec: Spec, id: Identity)
    ensures Roles(BastionTagsOf(spec, id), NodeTagsOf(spec, id))
  {
    RoleTags(spec, id);
    hide BastionTagsOf, NodeTagsOf;
  }

  lemma RemoveBastionReduced(spec: Spec, st: Status, c: CloudState, id: Identity, e: Env, tolerated: set<ErrorClass>)
    requires Valid(c)
    ensures var c' := RemoveBastion(spec, st, c, id, e, tolerated).cloud; Reduced(c, c') && Valid(c')
  {
    hide DeleteNodeSSH, DeleteBastion, BastionTagsOf, NodeTagsOf, Reduced, Valid;
    var node := DeleteNodeSSH(c, NodeTagsOf(spec, id), e.deleteNodeSSH);
    DeleteNodeSSHReduced(c, NodeTagsOf(spec, id), e.deleteNodeSSH);
    DeleteNodeSSHValid(c, NodeTagsOf(spec, id), e.deleteNodeSSH);
    var b := DeleteBastion(node.cloud, BastionTagsOf(spec, id), st.bastion.ids, e.deleteBastion);
    DeleteBastionReduced(node.cloud, BastionTagsOf(spec, id), st.bastion.ids, e.deleteBastion);
    DeleteBastionValid(node.cloud, BastionTagsOf(spec, id), st.bastion.ids, e.deleteBastion);
    ReducedThrough(c, node.cloud, b.cloud);
  }

  /** Another part of the cloud changed. */
  lemma SameHeld(spec: Spec, ids: BastionIDs, c: CloudState, c': CloudState, id: Identity)
    requires Held(spec, ids, c, id) && Valid(c')
    requires c'.servers == c.servers && c'.addresses == c.addresses && c'.groups == c.groups
    requires c'.attached == c.attached
    ensures Held(spec, ids, c', id)
  {
    var b, n := BastionTagsOf(spec, id), NodeTagsOf(spec, id);
    TaggedSame(c, c', Servers, b);
    TaggedSame(c, c', Addresses, b);
    TaggedSame(c, c', Groups, b);
    TaggedSame(c, c', Groups, n);
    hide BastionTagsOf, NodeTagsOf, Tagged, NodeOf, Matches;
  }

  // ------------------------------------------------------------------ cluster passes

  lemma MadeOlder(c: CloudState, kind: Kind, tags: Tags, calls: FindOrCreateCalls)
    ensures StoreOf(c, kind).nextID <= StoreOf(FindOrCreate(c, kind, tags, calls).cloud, kind).nextID
  {
    hide Find;
  }

  lemma EnsureBastionOlder(c: CloudState, tags: Tags, network: Id, calls: EnsureBastionCalls)
    ensures Older(c, EnsureBastion(c, tags, network, calls).cloud)
  {
    EnsureBastionAged(c, tags, network, calls);
    hide FindOrCreate, Aged;
    var group := FindOrCreate(c, Groups, tags, calls.group);
    FindOrCreateFrame(c, Groups, tags, calls.group);
    if group.result.Ok? {
      MadeOlder(group.cloud, Servers, tags, calls.server);
      FindOrCreateFrame(group.cloud, Servers, tags, calls.server);
      var server := CreateServerIn(group.cloud, tags, group.result.value, calls.server);
      if server.result.Ok? {
        var attach := Attach(server.cloud, server.result.value, group.result.value, calls.attach);
        MadeOlder(attach.cloud, Addresses, tags, calls.address);
        FindOrCreateFrame(attach.cloud, Addresses, tags, calls.address);
      }
    }
  }

  lemma EnsuredHeld(spec: Spec, st: Status, ids: BastionIDs, c: CloudState, id: Identity, e: Env)
    requires Held(spec, ids, c, id) && HonestEnsure(e.ensureBastion)
    ensures var op := EnsureBastion(c, BastionTagsOf(spec, id), NetworkID(spec, st), e.ensureBastion);
            Held(spec, ids, op.cloud, id) && (op.result.Ok? ==> Held(spec, op.result.value, op.cloud, id))
  {
    var b, n := BastionTagsOf(spec, id), NodeTagsOf(spec, id);
    RolesOf(spec, id);
    hide EnsureBastion, BastionTagsOf, NodeTagsOf, Tidy, Roles, Matches, Older;
    EnsureBastionTidy(c, NetworkID(spec, st), e.ensureBastion, b, n, OwnerOf(id));
    EnsureBastionOlder(c, b, NetworkID(spec, st), e.ensureBastion);
    EnsuredBastionIsTheOne(c, b, NetworkID(spec, st), e.ensureBastion);
    var op := EnsureBastion(c, b, NetworkID(spec, st), e.ensureBastion);
    OlderKept(ids, c, op.cloud, b);
    TidyValid(op.cloud, b, n, OwnerOf(id));
    if op.result.Ok? { TheOneIsKnown(op.cloud, b, op.result.value); }
  }

  lemma TheOneIsKnown(c: CloudState, b: Tags, ids: BastionIDs)
    requires Valid(c) && ids.server in Tagged(c, Servers, b) && ids.address in Tagged(c, Addresses, b)
    requires ids.group in Tagged(c, Groups, b)
    ensures IdsKnown(c, ids) && GroupKept(ids.group, c, b)
  {
  }

  lemma CallBastionHeld(spec: Spec, st: Status, ids: BastionIDs, c: CloudState, id: Identity, e: Env)
    requires Held(spec, ids, c, id) && HonestEnsure(e.ensureBastion)
    ensures var call := CallBastion(spec, st, c, id, e);
            Held(spec, ids, call.cloud, id) && (call.BastionIs? ==> Held(spec, call.ids, call.cloud, id))
  {
    HeldValid(spec, ids, c, id);
    RemoveBastionReduced(spec, st, c, id, e, {});
    RemoveBastionReduced(spec, st, c, id, e, {NotFound});
    ReducedHeld(spec, ids, c, RemoveBastion(spec, st, c, id, e, {}).cloud, id);
    ReducedHeld(spec, ids, c, RemoveBastion(spec, st, c, id, e, {NotFound}).cloud, id);
    EnsuredHeld(spec, st, ids, c, id, e);
    hide RemoveBastion, EnsureBastion, KnownAbsent, NeedsRecreate, Held, BastionTagsOf, NodeTagsOf, Reduced, Valid;
  }

  /** A normal pass: both for the record that was and for the one it wrote. */
  lemma NormalHeld(spec: Spec, st: Status, c: CloudState, id: Identity, e: Env)
    requires Held(spec, st.bastion.ids, c, id) && HonestEnsure(e.ensureBastion)
    ensures var s := Normal(spec, st, c, id, e);
            Held(spec, st.bastion.ids, s.cloud, id) && Held(spec, s.status.bastion.ids, s.cloud, id)
  {
    hide Normal, AtBastion, CallBastion, AfterBastion, Held, Valid, KnownAbsent, HonestEnsure;
    var ids := st.bastion.ids;
    HeldValid(spec, ids, c, id);
    NormalBastion(spec, st, c, id, e);
    var a := AtBastion(spec, st, c, id, e);
    SameHeld(spec, ids, c, a.cloud, id);
    if a.go {
      var call := CallBastion(spec, a.status, a.cloud, id, e);
      CallBastionHeld(spec, a.status, ids, a.cloud, id, e);
      AfterRecords(a.status, call, e);
      NoneHeld(spec, ids, call.cloud, id);
    }
  }

  lemma HeldValid(spec: Spec, ids: BastionIDs, c: CloudState, id: Identity)
    requires Held(spec, ids, c, id)
    ensures Valid(c)
  {
    hide Unique, Attached, BastionTagsOf, NodeTagsOf;
  }

  lemma CleanUpReduced(spec: Spec, st: Status, c: CloudState, id: Identity, e: Env)
    requires Valid(c)
    ensures var s := ClusterModel.Delete(spec, st, c, id, e);
            Reduced(c, s.cloud) && Valid(s.cloud) && (s.status.bastion == st.bastion || s.status.bastion == NoBastion)
  {
    hide DropBalancer, RemoveBastion, DropNetwork, Valid, Within, HasBastionStatus;
    SelfReduced(c);
    var s1 := DropBalancer(st, c, e);
    ClusterNetwork.DropBalancerFrame(st, c, e);
    BalancersValid(c, s1.cloud);
    assert Reduced(c, s1.cloud);
    var s2 := DropBastion(spec, s1.status, s1.cloud, id, e);
    RemoveBastionReduced(spec, s1.status, s1.cloud, id, e, {NotFound});
    ReducedThrough(c, s1.cloud, s2.cloud);
    var s3 := DropNetwork(spec, s2.status, s2.cloud, id, e);
    DropNetworkReduced(spec, s2.status, s2.cloud, id, e);
    DropNetworkKeeps(spec, s2.status, s2.cloud, id, e);
    ReducedThrough(c, s2.cloud, s3.cloud);
  }

  lemma DropNetworkReduced(spec: Spec, st: Status, c: CloudState, id: Identity, e: Env)
    ensures Reduced(c, DropNetwork(spec, st, c, id, e).cloud)
  {
    hide NetworkToDelete, CloudModel.Delete, Reduced;
    SelfReduced(c);
    var target := NetworkToDelete(spec, st, c, id, e);
    if target.Ok? { DeleteReduced(c, Networks, target.value, e.deleteNetwork); }
  }

  /** In every pass, whatever fails and whichever patch is lost. */
  lemma {:induction false} PassHeld(w: World, id: Identity, e: Env)
    requires Held(w.stored.spec, w.stored.status.bastion.ids, w.cloud, id) && HonestEnsure(e.ensureBastion)
    ensures var w' := Reconcile(w, id, e); Held(w'.stored.spec, w'.stored.status.bastion.ids, w'.cloud, id)
  {
    hide Normal, ClusterModel.Delete, Held, Valid, HonestEnsure, Reduced;
    var spec, st := w.stored.spec, Unpaused(w);
    var ids := st.bastion.ids;
    HeldValid(spec, ids, w.cloud, id);
    if w.stored.deleting {
      CleanUpReduced(spec, st, w.cloud, id, e);
      var s := ClusterModel.Delete(spec, st, w.cloud, id, e);
      ReducedHeld(spec, ids, w.cloud, s.cloud, id);
      NoneHeld(spec, ids, s.cloud, id);
    } else {
      NormalHeld(spec, st, w.cloud, id, e);
    }
  }

  // ------------------------------------------------------------------ machine passes

  lemma NodeThrough(labels: Tags, tags: Tags, k: Owner)
    requires Matches(labels, tags) && NodeOf(tags, k)
    ensures NodeOf(labels, k)
  {
  }

  /** The server a machine pass settles on is a machine server of the Cluster. */
  lemma SettledIsNode(m: MachineModel.StackitMachine, c: CloudState, tags: Tags, e: MachineModel.Env, k: Owner)
    requires Valid(c) && tags != map[] && NodeOf(tags, k)
    requires m.instanceID in c.servers.items ==> NodeOf(c.servers.items[m.instanceID], k)
    ensures var (c', r) := MachineModel.EnsureServer(m, c, tags, e);
            r.Server? && r.id in c'.servers.items ==> NodeOf(c'.servers.items[r.id], k)
  {
    FoundIsTheOne(c, Servers, tags, e.find);
    FoundIsTheOne(c, Servers, tags, e.create.find);
    forall s | s in Tagged(c, Servers, tags) ensures NodeOf(c.servers.items[s], k) {
      NodeThrough(c.servers.items[s], tags, k);
    }
    hide Find, Matches, NodeOf;
  }

  lemma EnsureServerTidy(m: MachineModel.StackitMachine, c: CloudState, tags: Tags, e: MachineModel.Env, b: Tags,
                         n: Tags, k: Owner)
    requires Tidy(c, b, n, k) && !Matches(tags, b)
    ensures var c' := MachineModel.EnsureServer(m, c, tags, e).0;
            Tidy(c', b, n, k) && c.servers.nextID <= c'.servers.nextID
  {
    hide Find, Get, FindOrCreate, Tidy;
    MachineMadeTidy(c, tags, e.create, b, n, k);
    MadeOlder(c, Servers, tags, e.create);
  }

  /** What a machine may be: one of the owning Cluster, no bastion by its labels. */
  predicate GoodNode(m: MachineModel.StackitMachine, c: CloudState, id: MachineModel.Identity, e: MachineModel.Env,
                     b: Tags, n: Tags, k: Owner)
  {
    && id.nodeTags == n && !Matches(id.tags, b) && Truthful(e.nodeSSH.group.find) && NodeOf(id.tags, k)
    && (m.instanceID in c.servers.items ==> NodeOf(c.servers.items[m.instanceID], k))
  }

  /** The tags of every machine of the Cluster are such tags. */
  lemma MachineTagsAreNode(k: Owner, m: string, uid: string, labels: Tags)
    ensures NodeOf(MachineTags(k.name, k.namespace, m, uid, labels), k)
  {
    AllTagsBelong(k.name, k.namespace, m, uid, labels);
    assert MachineUID in MachineTags(k.name, k.namespace, m, uid, labels);
  }

  lemma NodeAccessTidy(c: CloudState, server: Id, e: MachineModel.Env, b: Tags, n: Tags, k: Owner)
    requires Tidy(c, b, n, k) && Roles(b, n) && Truthful(e.nodeSSH.group.find)
    requires server in c.servers.items ==> NodeOf(c.servers.items[server], k)
    ensures var c' := MachineModel.NodeAccess(c, n, server, e).cloud; Tidy(c', b, n, k) && Older(c, c')
  {
    hide EnsureNodeSSH, Tidy, Roles, NodeOf;
    EnsureNodeSSHTidy(c, server, e.cluster.bastionGroup, e.nodeSSH, b, n, k);
    EnsureNodeSSHAged(c, n, server, e.cluster.bastionGroup, e.nodeSSH);
    EnsureNodeSSHFrame(c, n, server, e.cluster.bastionGroup, e.nodeSSH);
  }

  lemma MachineNormalTidy(m: MachineModel.StackitMachine, c: CloudState, id: MachineModel.Identity, e: MachineModel.Env,
                          b: Tags, n: Tags, k: Owner)
    requires Tidy(c, b, n, k) && Roles(b, n) && GoodNode(m, c, id, e, b, n, k)
    ensures var c' := MachineModel.Normal(m, c, id, e).cloud; Tidy(c', b, n, k) && Older(c, c')
  {
    assert id.tags != map[];
    hide MachineModel.EnsureServer, MachineModel.Finish, MachineModel.StopsEarly, MachineModel.NodeAccess,
         Tidy, Roles, Matches, NodeOf, MachineModel.Mark;
    var m1 := MachineModel.WithCredentials(m);
    SameInstance(m);
    TidyValid(c, b, n, k);
    var (c1, server) := MachineModel.EnsureServer(m1, c, id.tags, e);
    EnsureServerTidy(m1, c, id.tags, e, b, n, k);
    MachineFrames.EnsureServerFrame(m1, c, id.tags, e);
    SettledIsNode(m1, c, id.tags, e, k);
    MachineFrames.FinishFrame(m1, c1, server, id, e);
    if server.Server? { NodeAccessTidy(c1, server.id, e, b, n, k); }
  }

  lemma SameInstance(m: MachineModel.StackitMachine)
    ensures MachineModel.WithCredentials(m).instanceID == m.instanceID
  {
  }

  lemma MachineDeleteTidy(m: MachineModel.StackitMachine, c: CloudState, id: MachineModel.Identity, e: MachineModel.Env,
                          b: Tags, n: Tags, k: Owner)
    requires Tidy(c, b, n, k)
    ensures var c' := MachineModel.Delete(m, c, id, e).cloud; Tidy(c', b, n, k) && Older(c, c')
  {
    hide ResolveID, CloudModel.Delete, MachineModel.Mark, Tidy;
    var server := ResolveID(c, Servers, m.instanceID, id.tags, e.find);
    if server.Ok? {
      TidyValid(c, b, n, k);
      DeleteReduced(c, Servers, server.value, e.delete);
      DeleteValid(c, Servers, server.value, e.delete);
      ReducedTidy(c, CloudModel.Delete(c, Servers, server.value, e.delete).cloud, b, n, k);
    }
  }

  lemma {:induction false} MachinePassTidy(w: MachineModel.World, id: MachineModel.Identity, e: MachineModel.Env,
                                           b: Tags, n: Tags, k: Owner)
    requires Tidy(w.cloud, b, n, k) && Roles(b, n) && GoodNode(w.stored, w.cloud, id, e, b, n, k)
    ensures var c' := MachineModel.Reconcile(w, id, e).cloud; Tidy(c', b, n, k) && Older(w.cloud, c')
  {
    hide MachineModel.Normal, MachineModel.Delete, Tidy, Roles, Matches, NodeOf;
    var m := MachineModel.Mark(w.stored, MachineModel.Paused, false, Conditions.NotPaused);
    MachineNormalTidy(m.(finalizer := true), w.cloud, id, e, b, n, k);
    MachineDeleteTidy(m, w.cloud, id, e, b, n, k);
  }
}
