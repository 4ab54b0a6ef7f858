/** A bastion server that a record hides holds its security group: over every run the
    cluster cannot be deleted for as long as others leave that server alone. */
module BlockedTeardown {
  import opened Api
  import opened Labels
  import opened CloudModel
  import opened CloudFrames
  import opened CloudValidity
  import opened Removal
  import opened ClusterModel
  import opened ClusterFrames
  import opened ClusterRuns
  import opened ClusterTeardown
  import opened CleanTeardown
  import opened BastionMaking
  import opened BastionStages
  import opened BastionCover
  import opened BastionRuns
  import opened TidyCloud
  import opened BastionUpkeep
  import opened NetworkCover
  import opened BalancerCover
  import opened TeardownRuns
  import opened StaleRecords
  import ClusterNetwork
  import Conditions
  import MachineFrames
  import MachineModel

  /** A server other than the recorded one uses the bastion group that DeleteBastion
      will try to delete. */
  ghost predicate Holds(c: CloudState, b: Tags, ids: BastionIDs, s: Id, g: Id)
  {
    && Valid(c) && ids.server != 0 && s != ids.server && (s, g) in c.attached
    && g in Tagged(c, Groups, b) && (ids.group == g || (ids.group == 0 && Tagged(c, Groups, b) == {g}))
  }

  ghost predicate Blocked(w: World, id: Identity, s: Id, g: Id)
  {
    && w.stored.deleting && w.stored.finalizer
    && Holds(w.cloud, BastionTagsOf(w.stored.spec, id), w.stored.status.bastion.ids, s, g)
  }

  // ---------------------------------------------------------------- a deletion pass

  /** Deleting a server keeps the attachments of all others. */
  lemma OthersStayAttached(c: CloudState, kind: Kind, x: Id, o: Outcome, s: Id, g: Id)
    requires (s, g) in c.attached && (kind.Servers? ==> x != s)
    ensures (s, g) in CloudModel.Delete(c, kind, x, o).cloud.attached
  {
  }

  lemma UsedGroupStays(c: CloudState, g: Id, rules: Outcome, delete: Outcome, s: Id)
    requires (s, g) in c.attached && g in c.groups.items && Truthful(delete)
    ensures var op := DropGroup(c, g, rules, delete); op.result.Err? && op.cloud == c
  {
    assert exists p :: p in c.attached && p.1 == g;
  }

  lemma DismantleHeld(c: CloudState, ids: BastionIDs, calls: DeleteBastionCalls, s: Id)
    requires Valid(c) && HonestBastion(calls) && ids.group in c.groups.items
    requires (s, ids.group) in c.attached && s != ids.server
    ensures var op := DismantleBastion(c, ids, calls);
            op.result.Err? && (s, ids.group) in op.cloud.attached && op.cloud.groups == c.groups
  {
    hide CloudModel.Delete, DropGroup;
    var g := ids.group;
    var d := if ids.server != 0 && g != 0 then Detach(c, ids.server, g, calls.detach) else Op(c, Ok(()));
    assert (s, g) in d.cloud.attached && d.cloud.groups == c.groups;
    OthersStayAttached(d.cloud, Servers, ids.server, calls.deleteServer, s, g);
    DeleteFrame(d.cloud, Servers, ids.server, calls.deleteServer);
    var v := if ids.server != 0 then DeleteIfThere(d.cloud, Servers, ids.server, calls.deleteServer) else d;
    assert (s, g) in v.cloud.attached && v.cloud.groups == c.groups;
    OthersStayAttached(v.cloud, Addresses, ids.address, calls.deleteAddress, s, g);
    DeleteFrame(v.cloud, Addresses, ids.address, calls.deleteAddress);
    var a := if ids.address != 0 then DeleteIfThere(v.cloud, Addresses, ids.address, calls.deleteAddress) else v;
    assert (s, g) in a.cloud.attached && a.cloud.groups == c.groups;
    UsedGroupStays(a.cloud, g, calls.rules, calls.deleteGroup, s);
  }

  lemma DeleteBastionHeld(c: CloudState, b: Tags, ids: BastionIDs, calls: DeleteBastionCalls, s: Id, g: Id)
    requires Holds(c, b, ids, s, g) && b != map[] && HonestBastion(calls)
    ensures var op := DeleteBastion(c, b, ids, calls);
            op.result.Err? && (s, g) in op.cloud.attached && op.cloud.groups == c.groups
  {
    TaggedThere(c, b);
    FoundIsTheOne(c, Groups, b, calls.findGroup);
    var server := ResolveID(c, Servers, ids.server, b, calls.findServer);
    var address := ResolveID(c, Addresses, ids.address, b, calls.findAddress);
    var group := ResolveID(c, Groups, ids.group, b, calls.findGroup);
    if server.Ok? && address.Ok? && group.Ok? {
      assert server.value == ids.server && group.value == g;
      DismantleHeld(c, BastionIDs(server.value, address.value, group.value), calls, s);
    }
    hide DismantleBastion, Tagged, Valid, Find;
  }

  /** Whatever the calls do, as long as they do not lie: the bastion is not removed and
      the other server keeps its group. */
  lemma RemoveBastionHeld(spec: Spec, st: Status, c: CloudState, id: Identity, e: Env, s: Id, g: Id)
    requires Holds(c, BastionTagsOf(spec, id), st.bastion.ids, s, g) && HonestRemoval(e)
    ensures var op := RemoveBastion(spec, st, c, id, e, {NotFound});
            op.result.Err? && Holds(op.cloud, BastionTagsOf(spec, id), st.bastion.ids, s, g)
  {
    var b, n := BastionTagsOf(spec, id), NodeTagsOf(spec, id);
    RoleTags(spec, id);
    RolesExclude(c.groups.items[g], b, n);
    assert g !in Tagged(c, Groups, n);
    RemoveBastionEffect(spec, st, c, id, e, {NotFound});
    var node := DeleteNodeSSH(c, n, e.deleteNodeSSH);
    NodeSSHKeepsOthers(c, n, e.deleteNodeSSH);
    NodeSSHKeepsBastion(spec, c, id, e.deleteNodeSSH);
    DeleteNodeSSHValid(c, n, e.deleteNodeSSH);
    DeleteNodeSSHNeverNotFound(c, n, e.deleteNodeSSH);
    hide DeleteNodeSSH, DeleteBastion, BastionTagsOf, NodeTagsOf, Tagged, Valid, Matches;
    assert Holds(node.cloud, b, st.bastion.ids, s, g);
    DeleteBastionHeld(node.cloud, b, st.bastion.ids, e.deleteBastion, s, g);
    DeleteBastionNeverNotFound(node.cloud, b, st.bastion.ids, e.deleteBastion);
    TaggedSame(node.cloud, DeleteBastion(node.cloud, b, st.bastion.ids, e.deleteBastion).cloud, Groups, b);
  }

  lemma HoldsIgnores(c: CloudState, c': CloudState, b: Tags, ids: BastionIDs, s: Id, g: Id)
    requires Holds(c, b, ids, s, g) && Valid(c') && c'.groups == c.groups && c'.attached == c.attached
    ensures Holds(c', b, ids, s, g)
  {
    TaggedSame(c, c', Groups, b);
    hide Tagged, Valid;
  }

  lemma DeletionHeld(spec: Spec, st: Status, c: CloudState, id: Identity, e: Env, s: Id, g: Id)
    requires Holds(c, BastionTagsOf(spec, id), st.bastion.ids, s, g) && HonestRemoval(e) && !e.client.SecretGone?
    ensures var d := ClusterModel.Delete(spec, st, c, id, e);
            !d.go && Holds(d.cloud, BastionTagsOf(spec, id), st.bastion.ids, s, g) && d.status.bastion == st.bastion
  {
    hide DropBalancer, RemoveBastion, DropNetwork, Holds, BastionTagsOf, HonestRemoval;
    var s1 := DropBalancer(st, c, e);
    ClusterNetwork.DropBalancerFrame(st, c, e);
    assert Valid(c) by { HoldsValid(c, BastionTagsOf(spec, id), st.bastion.ids, s, g); }
    BalancersValid(c, s1.cloud);
    HoldsIgnores(c, s1.cloud, BastionTagsOf(spec, id), st.bastion.ids, s, g);
    RemoveBastionHeld(spec, s1.status, s1.cloud, id, e, s, g);
  }

  lemma HoldsValid(c: CloudState, b: Tags, ids: BastionIDs, s: Id, g: Id)
    requires Holds(c, b, ids, s, g)
    ensures Valid(c)
  {
  }

  lemma PassStaysBlocked(w: World, id: Identity, e: Env, s: Id, g: Id)
    requires Blocked(w, id, s, g) && HonestRemoval(e) && !e.client.SecretGone?
    ensures Blocked(Reconcile(w, id, e), id, s, g)
  {
    DeletionHeld(w.stored.spec, Unpaused(w), w.cloud, id, e, s, g);
    hide ClusterModel.Delete, Normal, Holds, HonestRemoval, BastionTagsOf;
  }

  // ------------------------------------------------------------------ everything else

  /** The machine pass is not about that server. */
  predicate NotAbout(m: MachineModel.StackitMachine, c: CloudState, mid: MachineModel.Identity, s: Id)
  {
    m.instanceID != s && (s in c.servers.items ==> !Matches(c.servers.items[s], mid.tags))
  }

  lemma AccessKeeps(c: CloudState, n: Tags, server: Id, e: MachineModel.Env)
    ensures c.attached <= MachineModel.NodeAccess(c, n, server, e).cloud.attached
  {
    hide FindOrCreate;
    FindOrCreateFrame(c, Groups, n, e.nodeSSH.group);
  }

  lemma MachineNormalKeeps(m: MachineModel.StackitMachine, c: CloudState, mid: MachineModel.Identity,
                           e: MachineModel.Env)
    ensures c.attached <= MachineModel.Normal(m, c, mid, e).cloud.attached
  {
    hide MachineModel.EnsureServer, MachineModel.Finish, MachineModel.StopsEarly, MachineModel.NodeAccess;
    hide MachineModel.WithCredentials;
    var m1 := MachineModel.WithCredentials(m);
    var (c1, server) := MachineModel.EnsureServer(m1, c, mid.tags, e);
    MachineFrames.EnsureServerFrame(m1, c, mid.tags, e);
    MachineFrames.FinishFrame(m1, c1, server, mid, e);
    if server.Server? { AccessKeeps(c1, mid.nodeTags, server.id, e); }
  }

  lemma MachineDeleteKeeps(m: MachineModel.StackitMachine, c: CloudState, mid: MachineModel.Identity,
                           e: MachineModel.Env, s: Id, g: Id)
    requires Valid(c) && (s, g) in c.attached && NotAbout(m, c, mid, s)
    ensures (s, g) in MachineModel.Delete(m, c, mid, e).cloud.attached
  {
    var server := ResolveID(c, Servers, m.instanceID, mid.tags, e.find);
    assert forall x :: x in Tagged(c, Servers, mid.tags) ==> x != s;
    if server.Ok? && server.value != 0 {
      assert server.value != s by { if mid.tags != map[] { FoundIsTheOne(c, Servers, mid.tags, e.find); } }
      OthersStayAttached(c, Servers, server.value, e.delete, s, g);
    }
    hide CloudModel.Delete, ResolveID, Tagged, Matches;
  }

  lemma MachineKeepsPair(w: MachineModel.World, mid: MachineModel.Identity, e: MachineModel.Env, s: Id, g: Id)
    requires Valid(w.cloud) && (s, g) in w.cloud.attached && NotAbout(w.stored, w.cloud, mid, s)
    ensures (s, g) in MachineModel.Reconcile(w, mid, e).cloud.attached
  {
    var m := MachineModel.Mark(w.stored, MachineModel.Paused, false, Conditions.NotPaused);
    MachineNormalKeeps(m.(finalizer := true), w.cloud, mid, e);
    MachineDeleteKeeps(m, w.cloud, mid, e, s, g);
    hide MachineModel.Normal, MachineModel.Delete, Valid;
  }

  /** A machine pass deletes no group. */
  lemma MachineKeepsGroups(w: MachineModel.World, mid: MachineModel.Identity, e: MachineModel.Env, b: Tags)
    requires Valid(w.cloud) && !Matches(mid.tags, b) && !Matches(mid.nodeTags, b)
    ensures Tagged(MachineModel.Reconcile(w, mid, e).cloud, Groups, b) == Tagged(w.cloud, Groups, b)
  {
    var m := MachineModel.Mark(w.stored, MachineModel.Paused, false, Conditions.NotPaused);
    MachineNormal(m.(finalizer := true), w.cloud, mid, e, b);
    MachineFrames.DeletePassFrame(m, w.cloud, mid, e);
    TaggedSame(w.cloud, MachineModel.Delete(m, w.cloud, mid, e).cloud, Groups, b);
    hide MachineModel.Normal, MachineModel.Delete, Valid, Tagged, Matches;
  }

  /** Others and machine passes leave the server and the group alone, the credentials
      stay, and calls tell no lies about absence. */
  ghost predicate LeftAlone(w: World, id: Identity, ev: Event, s: Id, g: Id)
  {
    match ev
    case Reconciled(e) => HonestRemoval(e) && !e.client.SecretGone?
    case SpecUpdated(o) => o.spec.labels == w.stored.spec.labels
    case MachineReconciled(m, mid, e) => Tracked(w, id, ev) && NotAbout(m, w.cloud, mid, s)
    case Interference(c) =>
      && Valid(c) && (s, g) in c.attached && g in Tagged(c, Groups, BastionTagsOf(w.stored.spec, id))
      && Shrinks(w.stored.spec, w.cloud, c, id)
    case DeletionRequested => true
  }

  lemma MachineStaysBlocked(w: World, id: Identity, s: Id, g: Id,
                            m: MachineModel.StackitMachine, mid: MachineModel.Identity, e: MachineModel.Env)
    requires Blocked(w, id, s, g) && LeftAlone(w, id, MachineReconciled(m, mid, e), s, g)
    ensures Blocked(Next(w, id, MachineReconciled(m, mid, e)), id, s, g)
  {
    var b, n := BastionTagsOf(w.stored.spec, id), NodeTagsOf(w.stored.spec, id);
    var mw := MachineModel.World(m, w.cloud, false);
    RoleTags(w.stored.spec, id);
    assert Matches(n, n);
    RolesExclude(n, b, n);
    MachineShrinks(w, id, m, mid, e);
    MachineKeepsPair(mw, mid, e, s, g);
    MachineKeepsGroups(mw, mid, e, b);
    hide MachineModel.Reconcile, Valid, Tagged, BastionTagsOf, NodeTagsOf, Matches;
  }

  lemma StepStaysBlocked(w: World, id: Identity, ev: Event, s: Id, g: Id)
    requires Blocked(w, id, s, g) && LeftAlone(w, id, ev, s, g)
    ensures Blocked(Next(w, id, ev), id, s, g)
  {
    hide Reconcile, MachineModel.Reconcile, HonestRemoval, Tracked, NotAbout, Valid, Tagged, BastionTagsOf, NodeTagsOf;
    match ev
    case Reconciled(e) => PassStaysBlocked(w, id, e, s, g);
    case SpecUpdated(o) => SameTags(w.stored.spec, o.spec, id);
    case MachineReconciled(m, mid, e) => MachineStaysBlocked(w, id, s, g, m, mid, e);
    case Interference(_) =>
    case DeletionRequested =>
  }

  /** Over every run from there, however often deletion is tried and whichever calls
      work: the finalizer stays. */
  lemma {:induction false} BlockedForGood(w: World, id: Identity, s: Id, g: Id, events: seq<Event>)
    requires Blocked(w, id, s, g) && Run(w, id, events, (v, ev) => LeftAlone(v, id, ev, s, g))
    ensures After(w, id, events).stored.finalizer
  {
    hide Holds, LeftAlone, Next;
    var inv := (v: World) => Blocked(v, id, s, g);
    var ok := (v, ev) => LeftAlone(v, id, ev, s, g);
    forall v: World, ev: Event | inv(v) && ok(v, ev) ensures inv(Next(v, id, ev)) { StepStaysBlocked(v, id, ev, s, g); }
    Invariance(w, id, events, inv, ok);
  }

  lemma ReplacedServerHolds(spec: Spec, ids: BastionIDs, c: CloudState, id: Identity, network: Id,
                            calls: EnsureBastionCalls)
    requires BastionCovered(c, BastionTagsOf(spec, id), ids) && IdsKnown(c, ids) && HonestEnsure(calls)
    requires Held(spec, ids, EnsureBastion(c, BastionTagsOf(spec, id), network, calls).cloud, id)
    requires ids.server != 0 && ServerMade(c, BastionTagsOf(spec, id), network, calls)
    requires !(ids.group != 0 && GroupMade(c, BastionTagsOf(spec, id), network, calls))
    ensures var b := BastionTagsOf(spec, id);
            exists g :: Holds(EnsureBastion(c, b, network, calls).cloud, b, ids, c.servers.nextID, g)
  {
    var b := BastionTagsOf(spec, id);
    RoleTags(spec, id);
    MadeServerAttached(c, b, network, calls);
    EnsureEffect(c, b, network, calls);
    var c' := EnsureBastion(c, b, network, calls).cloud;
    HeldValid(spec, ids, c', id);
    var g :| g in Tagged(c', Groups, b) && (c.servers.nextID, g) in c'.attached;
    hide EnsureBastion, BastionTagsOf, NodeTagsOf, Tagged, ServerMade, GroupMade, AddressMade, Attached, GroupKept;
    hide Valid;
    assert Holds(c', b, ids, c.servers.nextID, g);
  }

  /** And that is where a pass ends that replaces a recorded server, not the group with
      it, and does not record the new one, once deletion is requested. */
  lemma {:induction false} HiddenServerIsBlocked(w: World, id: Identity, e: Env)
    requires Whole(w, id) && HonestCalls(e)
    requires HidesBastion(w, id, e) && BlocksTeardown(w, id, e)
    ensures exists g :: Blocked(Deleting(Reconcile(w, id, e)), id, w.cloud.servers.nextID, g)
  {
    var spec, ids := w.stored.spec, w.stored.status.bastion.ids;
    assert IdsKnown(w.cloud, ids) && ReachesBastion(w, id, e);
    hide Reconcile, AtBastion, EnsureBastion, BastionStage, BastionTagsOf, Holds, Held, Covering, ServerMade;
    hide GroupMade, Replaces;
    hide BastionUnblocked, Completes, KnownAbsent, NetworkSound, BalancerSound, HonestRemoval, IdsKnown, Valid;
    hide BastionCovered;
    var a := AtBastion(spec, Unpaused(w), w.cloud, id, e);
    var b, network := BastionTagsOf(spec, id), BastionNetwork(w, id, e);
    assert Valid(w.cloud) && BastionCovered(w.cloud, b, ids) by { CoveringSays(spec, ids, w.cloud, id); }
    Reached(w, id, e);
    SameMaking(w.cloud, a.cloud, b, network, ids, e.ensureBastion);
    HidingPass(w, id, e);
    ReplacedServerHolds(spec, ids, a.cloud, id, network, e.ensureBastion);
    var w1 := Reconcile(w, id, e);
    var g :| Holds(w1.cloud, b, ids, w.cloud.servers.nextID, g);
    assert Blocked(Deleting(w1), id, w.cloud.servers.nextID, g);
  }

  lemma CoveringSays(spec: Spec, ids: BastionIDs, c: CloudState, id: Identity)
    requires Covering(spec, ids, c, id)
    ensures Valid(c) && BastionCovered(c, BastionTagsOf(spec, id), ids)
  {
  }
}
