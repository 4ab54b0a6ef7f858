/** The bastion over whole runs of both controllers: recorded IDs cover what carries
    the bastion's tags, and a persisted BastionReady reason of Skipped means that
    nothing of the bastion or of node SSH access is left. */
module BastionRuns {
  import opened Api
  import opened Labels
  import opened CloudModel
  import opened CloudValidity
  import opened Removal
  import opened ClusterModel
  import opened ClusterFrames
  import opened ClusterRuns
  import opened ClusterTeardown
  import opened BastionMaking
  import opened BastionStages
  import opened BastionCover
  import opened BastionSkip
  import ClusterNetwork
  import MachineFrames
  import MachineModel

  // ------------------------------------------------------------- records that cover

  /** What may happen: a pass tells no lie about absence and does not hide a replaced
      resource; labels stay; a machine's labels do not pose as a bastion's; and others
      make no bastion and no node-SSH resource of this cluster. */
  ghost predicate Tracked(w: World, id: Identity, ev: Event)
  {
    match ev
    case Reconciled(e) => HonestPass(e) && !HidesBastion(w, id, e)
    case SpecUpdated(o) => o.spec.labels == w.stored.spec.labels
    case MachineReconciled(m, mid, e) =>
      mid.nodeTags == NodeTagsOf(w.stored.spec, id) && !Matches(mid.tags, BastionTagsOf(w.stored.spec, id))
    case Interference(c) => Valid(c) && Shrinks(w.stored.spec, w.cloud, c, id)
    case DeletionRequested => true
  }

  lemma MachineShrinks(w: World, id: Identity, m: MachineModel.StackitMachine, mid: MachineModel.Identity,
                       e: MachineModel.Env)
    requires Valid(w.cloud) && Tracked(w, id, MachineReconciled(m, mid, e))
    ensures var c' := Next(w, id, MachineReconciled(m, mid, e)).cloud;
            Valid(c') && BastionShrinks(w.cloud, c', BastionTagsOf(w.stored.spec, id))
  {
    var spec := w.stored.spec;
    RoleTags(spec, id);
    hide MachineModel.Reconcile, Valid, Tagged, BastionTagsOf, NodeTagsOf;
    var bastion, node := BastionTagsOf(spec, id), NodeTagsOf(spec, id);
    assert Matches(node, node);
    RolesExclude(node, bastion, node);
    hide Matches;
    MachinePass(MachineModel.World(m, w.cloud, false), mid, e, bastion);
  }

  lemma SameTags(spec: Spec, spec': Spec, id: Identity)
    requires spec'.labels == spec.labels
    ensures BastionTagsOf(spec', id) == BastionTagsOf(spec, id) && NodeTagsOf(spec', id) == NodeTagsOf(spec, id)
    ensures ClusterTagsOf(spec', id) == ClusterTagsOf(spec, id)
  {
  }

  lemma StepCovers(w: World, id: Identity, ev: Event)
    requires WorldCovers(w, id) && Tracked(w, id, ev)
    ensures WorldCovers(Next(w, id, ev), id)
  {
    hide Reconcile, MachineModel.Reconcile, HidesBastion, Valid, Matches, Tagged, BastionTagsOf, NodeTagsOf;
    match ev
    case Reconciled(e) => PassCovers(w, id, e);
    case SpecUpdated(o) => SameTags(w.stored.spec, o.spec, id);
    case MachineReconciled(m, mid, e) => MachineShrinks(w, id, m, mid, e);
    case Interference(c) => ShrinkingCovers(w.stored.spec, w.stored.status.bastion.ids, w.cloud, c, id);
    case DeletionRequested =>
  }

  lemma {:induction false} EveryRunCovers(w: World, id: Identity, events: seq<Event>)
    requires WorldCovers(w, id) && Run(w, id, events, (v, ev) => Tracked(v, id, ev))
    ensures WorldCovers(After(w, id, events), id)
  {
    hide Tracked, WorldCovers, Next;
    var inv := (v: World) => WorldCovers(v, id);
    var ok := (v, ev) => Tracked(v, id, ev);
    forall v: World, ev: Event | inv(v) && ok(v, ev) ensures inv(Next(v, id, ev)) { StepCovers(v, id, ev); }
    Invariance(w, id, events, inv, ok);
  }

  /** At the end of every such run, patches lost on the way or not, a deletion pass
      that gets through its clean-up leaves nothing of the bastion behind. */
  lemma {:induction false} NoBastionOutlivesItsCluster(w: World, id: Identity, events: seq<Event>, e: Env)
    requires WorldCovers(w, id) && Run(w, id, events, (v, ev) => Tracked(v, id, ev)) && HonestRemoval(e)
    ensures var now := After(w, id, events);
            var s := CleanUp(now.stored.spec, now.stored.status, now.cloud, id, e);
            s.go ==> BastionGone(s.cloud, BastionTagsOf(now.stored.spec, id)) &&
                     Tagged(s.cloud, Groups, NodeTagsOf(now.stored.spec, id)) == {}
  {
    EveryRunCovers(w, id, events);
    var now := After(w, id, events);
    hide After, Run, CleanUp, HonestRemoval, BastionCovered, BastionGone, Valid;
    if CleanUp(now.stored.spec, now.stored.status, now.cloud, id, e).go {
      CleanUpRemovesBastion(now.stored.spec, now.stored.status, now.cloud, id, e);
    }
  }

  lemma CleanUpRemovesBastion(spec: Spec, st: Status, c: CloudState, id: Identity, e: Env)
    requires Covering(spec, st.bastion.ids, c, id) && HonestRemoval(e) && CleanUp(spec, st, c, id, e).go
    ensures var c' := CleanUp(spec, st, c, id, e).cloud;
            BastionGone(c', BastionTagsOf(spec, id)) && Tagged(c', Groups, NodeTagsOf(spec, id)) == {}
  {
    hide DropBalancer, RemoveBastion, DropNetwork, Tagged, NodeTagsOf, BastionTagsOf, Covers, Valid;
    var s1 := DropBalancer(st, c, e);
    ClusterNetwork.DropBalancerFrame(st, c, e);
    BalancersValid(c, s1.cloud);
    SamePartShrinks(spec, c, s1.cloud, id);
    ShrinkingCovers(spec, st.bastion.ids, c, s1.cloud, id);
    var s2 := DropBastion(spec, s1.status, s1.cloud, id, e);
    HonestlyRemovedIff(spec, s1.status, s1.cloud, id, e, {NotFound});
    var s3 := DropNetwork(spec, s2.status, s2.cloud, id, e);
    DropNetworkFrame(spec, s2.status, s2.cloud, id, e);
    SamePartShrinks(spec, s2.cloud, s3.cloud, id);
  }

  // ------------------------------------------------------------- Skipped tells the truth

  ghost predicate SkippedIsTrue(w: World, id: Identity)
  {
    WorldCovers(w, id) && WorldSkipHolds(w, id)
  }

  /** The two ways in which a pass with honest answers goes wrong. */
  ghost predicate Orderly(w: World, id: Identity, e: Env)
  {
    HonestPass(e) && !HidesBastion(w, id, e) && !LosesFirst(w, id, e)
  }

  /** There is no third: an honest pass keeps records covering and Skipped true if and
      only if it is orderly. */
  lemma {:induction false} PassKeepsSkippedIff(w: World, id: Identity, e: Env)
    requires SkippedIsTrue(w, id) && HonestPass(e)
    ensures Orderly(w, id, e) ==> SkippedIsTrue(Reconcile(w, id, e), id)
    ensures IdsKnown(w.cloud, w.stored.status.bastion.ids) ==>
              (SkippedIsTrue(Reconcile(w, id, e), id) <==> Orderly(w, id, e))
  {
    hide Reconcile, HidesBastion, LosesFirst, WorldSkipHolds, IdsKnown;
    SkippedTurnsFalseIff(w, id, e);
    if !HidesBastion(w, id, e) { PassCovers(w, id, e); }
    if IdsKnown(w.cloud, w.stored.status.bastion.ids) { BastionTurnsStaleIff(w, id, e); }
    hide BastionCovered, Valid, ReachesBastion, HonestPass;
  }

  /** In particular every honest pass is orderly whose patch lands and whose
      EnsureBastion, if it fails, leaves the cloud as it was. */
  lemma {:induction false} AtomicCallsAreOrderly(w: World, id: Identity, e: Env)
    requires SkippedIsTrue(w, id) && HonestPass(e) && e.finalPatchLands
    requires var a := AtBastion(w.stored.spec, Unpaused(w), w.cloud, id, e);
             var op := EnsureBastion(a.cloud, BastionTagsOf(w.stored.spec, id), NetworkID(w.stored.spec, a.status),
                                     e.ensureBastion);
             op.result.Err? ==> op.cloud == a.cloud
    ensures Orderly(w, id, e)
  {
    if HidesBastion(w, id, e) {
      var spec, ids := w.stored.spec, w.stored.status.bastion.ids;
      var a := AtBastion(spec, Unpaused(w), w.cloud, id, e);
      var tags, network := BastionTagsOf(spec, id), NetworkID(spec, a.status);
      RoleTags(spec, id);
      Reached(w, id, e);
      SameMaking(w.cloud, a.cloud, tags, network, ids, e.ensureBastion);
      EnsureEffect(a.cloud, tags, network, e.ensureBastion);
      hide AtBastion, EnsureBastion, Reconcile, BastionStage, BastionTagsOf, Tagged, Completes, ReachesBastion;
      hide Valid, KnownAbsent;
      hide AtServer, AtAddress, HonestRemoval, BastionCovered;
      assert false;
    }
  }

  /** Of machines it is asked in addition that they read the persisted cluster. */
  ghost predicate Cooperative(w: World, id: Identity, ev: Event)
  {
    && Tracked(w, id, ev)
    && (ev.Reconciled? ==> !LosesFirst(w, id, ev.env))
    && (ev.MachineReconciled? ==> ev.machineEnv.cluster.bastionEnabled == w.stored.spec.bastionEnabled &&
                                  ev.machineEnv.cluster.bastionGroup == w.stored.status.bastion.ids.group)
  }

  /** Without a bastion group to offer, a machine pass makes no group. */
  lemma MachineKeepsSkip(w: World, id: Identity, m: MachineModel.StackitMachine, mid: MachineModel.Identity,
                         e: MachineModel.Env)
    requires Valid(w.cloud) && WorldSkipHolds(w, id) && Cooperative(w, id, MachineReconciled(m, mid, e))
    ensures WorldSkipHolds(Next(w, id, MachineReconciled(m, mid, e)), id)
  {
    var spec, st := w.stored.spec, w.stored.status;
    var mw := MachineModel.World(m, w.cloud, false);
    MachineShrinks(w, id, m, mid, e);
    MachineFrames.MachinePassFrame(mw, mid, e);
    hide MachineModel.Reconcile, Valid, Tagged, BastionTagsOf, NodeTagsOf, KnownAbsent, Matches;
    if KnownAbsent(st) { TaggedSame(w.cloud, MachineModel.Reconcile(mw, mid, e).cloud, Groups, NodeTagsOf(spec, id)); }
  }

  lemma StepKeepsSkipped(w: World, id: Identity, ev: Event)
    requires SkippedIsTrue(w, id) && Cooperative(w, id, ev)
    ensures SkippedIsTrue(Next(w, id, ev), id)
  {
    hide Reconcile, MachineModel.Reconcile, HidesBastion, LosesFirst, WorldCovers, Valid, Matches, Shrinks, Tagged;
    hide BastionTagsOf, NodeTagsOf;
    hide KnownAbsent, HasBastionStatus;
    var spec, st := w.stored.spec, w.stored.status;
    StepCovers(w, id, ev);
    assert Valid(w.cloud) by { CoversValid(w, id); }
    match ev
    case Reconciled(e) => PassKeepsSkippedIff(w, id, e);
    case SpecUpdated(o) => SpecKeepsSkip(w, id, o);
    case MachineReconciled(m, mid, e) => MachineKeepsSkip(w, id, m, mid, e);
    case Interference(c) => ShrinkingKeepsSkip(spec, st, st, w.cloud, c, id);
    case DeletionRequested =>
  }

  lemma CoversValid(w: World, id: Identity)
    requires WorldCovers(w, id)
    ensures Valid(w.cloud)
  {
  }

  lemma SpecKeepsSkip(w: World, id: Identity, o: StackitCluster)
    requires WorldSkipHolds(w, id) && o.spec.labels == w.stored.spec.labels
    ensures WorldSkipHolds(Next(w, id, SpecUpdated(o)), id)
  {
    SameTags(w.stored.spec, o.spec, id);
    hide BastionTagsOf, NodeTagsOf, Tagged;
  }

  /** In every state of every run of both controllers: if the persisted BastionReady
      reason is Skipped, the bastion status is empty and the cloud holds no bastion
      server, address or group and no node-SSH group of this cluster; and the
      recorded IDs always cover what the cluster's bastion tags find. */
  lemma {:induction false} SkippedMeansAbsent(w: World, id: Identity, events: seq<Event>)
    requires SkippedIsTrue(w, id) && Run(w, id, events, (v, ev) => Cooperative(v, id, ev))
    ensures var now := After(w, id, events);
            && (KnownAbsent(now.stored.status) ==> Cleaned(now.stored.spec, now.stored.status, now.cloud, id))
            && BastionCovered(now.cloud, BastionTagsOf(now.stored.spec, id), now.stored.status.bastion.ids)
  {
    hide Cooperative, KnownAbsent, Cleaned, BastionCovered, Valid, Next;
    var inv := (v: World) => SkippedIsTrue(v, id);
    var ok := (v, ev) => Cooperative(v, id, ev);
    forall v: World, ev: Event | inv(v) && ok(v, ev) ensures inv(Next(v, id, ev)) { StepKeepsSkipped(v, id, ev); }
    Invariance(w, id, events, inv, ok);
  }
}
