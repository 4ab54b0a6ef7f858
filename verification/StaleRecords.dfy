/** The tag lookup runs only when no ID is recorded. What a record that hides a real
    resource does to teardown: it leaks, or it blocks for good. */
module StaleRecords {
  import opened Api
  import opened Labels
  import opened CloudModel
  import opened CloudFrames
  import opened CloudValidity
  import opened Removal
  import opened ClusterModel
  import opened ClusterFrames
  import opened ClusterTeardown
  import opened CleanTeardown
  import opened BastionMaking
  import opened BastionStages
  import opened BastionCover
  import opened BastionSkip
  import opened BastionRuns
  import opened TidyCloud
  import opened BastionUpkeep
  import opened NetworkCover
  import opened BalancerCover
  import opened TeardownRuns

  /** A teardown that finishes with a stale record leaves the hidden resource behind,
      whatever its calls answer. */
  lemma {:induction false} StaleRecordLeaks(spec: Spec, st: Status, c: CloudState, id: Identity, e: Env)
    requires Valid(c) && "" !in c.balancers && CleanUp(spec, st, c, id, e).go
    ensures !NetworkCovered(spec, st, c, id) || !BastionCovered(c, BastionTagsOf(spec, id), st.bastion.ids) ==>
              !AllGone(spec, CleanUp(spec, st, c, id, e).cloud, id)
  {
    hide CleanUp, AllGone, NetworkCovered, BastionCovered, BalancerCovered, Valid, AllAnswered;
    TeardownCompleteIff(spec, st, c, id, e);
  }

  // ------------------------------------------------------- after a hidden replacement

  /** The pass replaced a recorded server, and not the recorded group as well. */
  ghost predicate BlocksTeardown(w: World, id: Identity, e: Env)
  {
    var tags, network, ids := BastionTagsOf(w.stored.spec, id), BastionNetwork(w, id, e), w.stored.status.bastion.ids;
    && ids.server != 0 && ServerMade(w.cloud, tags, network, e.ensureBastion)
    && !(ids.group != 0 && GroupMade(w.cloud, tags, network, e.ensureBastion))
  }

  /** A new server is attached to the group it was created with. */
  lemma MadeServerAttached(c: CloudState, tags: Tags, network: Id, calls: EnsureBastionCalls)
    requires tags != map[] && HonestEnsure(calls) && ServerMade(c, tags, network, calls)
    ensures var c' := EnsureBastion(c, tags, network, calls).cloud;
            exists g :: g in Tagged(c', Groups, tags) && (c.servers.nextID, g) in c'.attached
  {
    hide EnsureBastion, FindOrCreate, CreateServerIn, Tagged, Passes, Makes;
    FindOrCreateEffect(c, Groups, tags, calls.group);
    FindOrCreateUnique(c, Groups, tags, calls.group);
    FindOrCreateFrame(c, Groups, tags, calls.group);
    var group := FindOrCreate(c, Groups, tags, calls.group);
    var g := group.result.value;
    TaggedSame(c, group.cloud, Servers, tags);
    NewServerIn(group.cloud, tags, g, calls.server);
    CreateServerInFrame(group.cloud, tags, g, calls.server);
    var server := CreateServerIn(group.cloud, tags, g, calls.server);
    AfterServer(c, tags, network, calls, group, server);
    var c' := EnsureBastion(c, tags, network, calls).cloud;
    TaggedSame(group.cloud, c', Groups, tags);
    assert g in Tagged(c', Groups, tags) && (c.servers.nextID, g) in c'.attached;
  }

  lemma AfterServer(c: CloudState, tags: Tags, network: Id, calls: EnsureBastionCalls, group: Op<Id>, server: Op<Id>)
    requires tags != map[] && network != 0 && calls.rules.Works?
    requires group == FindOrCreate(c, Groups, tags, calls.group) && group.result.Ok?
    requires server == CreateServerIn(group.cloud, tags, group.result.value, calls.server)
    requires server.cloud.groups == group.cloud.groups
    ensures var c' := EnsureBastion(c, tags, network, calls).cloud;
            c'.groups == group.cloud.groups && server.cloud.attached <= c'.attached
  {
    hide FindOrCreate, CreateServerIn;
    if server.result.Ok? {
      var attach := Attach(server.cloud, server.result.value, group.result.value, calls.attach);
      FindOrCreateFrame(attach.cloud, Addresses, tags, calls.address);
    }
  }

  lemma NewServerIn(c: CloudState, tags: Tags, g: Id, calls: FindOrCreateCalls)
    requires tags != map[] && Makes(Tagged(c, Servers, tags), calls)
    ensures (c.servers.nextID, g) in CreateServerIn(c, tags, g, calls).cloud.attached
  {
  }

  /** After EnsureBastion, DeleteBastion with the old record is blocked exactly if a
      recorded server was replaced and not the recorded group as well. */
  lemma {:induction false} ReplacedUnblockedIff(spec: Spec, ids: BastionIDs, c: CloudState, id: Identity, network: Id,
                                                calls: EnsureBastionCalls)
    requires Held(spec, ids, c, id) && BastionCovered(c, BastionTagsOf(spec, id), ids) && HonestEnsure(calls)
    requires Held(spec, ids, EnsureBastion(c, BastionTagsOf(spec, id), network, calls).cloud, id)
    ensures var b := BastionTagsOf(spec, id);
            BastionUnblocked(EnsureBastion(c, b, network, calls).cloud, b, ids) <==>
            !(ids.server != 0 && ServerMade(c, b, network, calls) &&
              !(ids.group != 0 && GroupMade(c, b, network, calls)))
  {
    var b := BastionTagsOf(spec, id);
    var c' := EnsureBastion(c, b, network, calls).cloud;
    RoleTags(spec, id);
    EnsureEffect(c, b, network, calls);
    if ServerMade(c, b, network, calls) { MadeServerAttached(c, b, network, calls); }
    FoundIsTheOne(c', Servers, b, Works);
    FoundIsTheOne(c', Groups, b, Works);
    TaggedThere(c', b);
    hide EnsureBastion, BastionTagsOf, NodeTagsOf, Tagged, ServerMade, GroupMade, AddressMade, Matches, NodesOnly;
    var server, group := ResolveID(c', Servers, ids.server, b, Works), ResolveID(c', Groups, ids.group, b, Works);
    if group.value != 0 && group.value in c'.groups.items {
      assert group.value in Tagged(c', Groups, b);
      assert forall p :: p in c'.attached && p.1 == group.value ==> p.0 in Tagged(c', Servers, b);
    }
  }

  lemma TaggedThere(c: CloudState, b: Tags)
    requires Valid(c)
    ensures forall g :: g in Tagged(c, Groups, b) ==> g in c.groups.items && g != 0
    ensures forall g :: g in c.groups.items && Matches(c.groups.items[g], b) ==> g in Tagged(c, Groups, b)
  {
  }

  /** A pass that hides a replaced resource: the record stays what it was, and the
      cloud is what EnsureBastion left. */
  lemma HidingPass(w: World, id: Identity, e: Env)
    requires Whole(w, id) && HonestCalls(e) && HidesBastion(w, id, e)
    ensures var w1 := Reconcile(w, id, e);
            && w1.stored.spec == w.stored.spec && w1.stored.finalizer && !w1.stored.deleting
            && w1.stored.status.bastion.ids == w.stored.status.bastion.ids
            && Held(w.stored.spec, w.stored.status.bastion.ids, w1.cloud, id)
            && w1.cloud == EnsureBastion(AtBastion(w.stored.spec, Unpaused(w), w.cloud, id, e).cloud,
                                         BastionTagsOf(w.stored.spec, id), BastionNetwork(w, id, e),
                                         e.ensureBastion).cloud
            && (BastionUnblocked(w1.cloud, BastionTagsOf(w.stored.spec, id), w.stored.status.bastion.ids) <==>
                  !BlocksTeardown(w, id, e))
  {
    var spec, ids := w.stored.spec, w.stored.status.bastion.ids;
    var a := AtBastion(spec, Unpaused(w), w.cloud, id, e);
    var tags, network := BastionTagsOf(spec, id), NetworkID(spec, a.status);
    Reached(w, id, e);
    SameMaking(w.cloud, a.cloud, tags, network, ids, e.ensureBastion);
    SameDecision(spec, w.stored.status, a.status, e);
    StageCovers(spec, a.status, a.cloud, id, e);
    EnsureCase(spec, a.status, a.cloud, id, e);
    AfterRecords(a.status, CallBastion(spec, a.status, a.cloud, id, e), e);
    SameHeld(spec, ids, w.cloud, a.cloud, id);
    PassHeld(w, id, e);
    KeptFinalizer(w, id, e);
    hide Reconcile, AtBastion, CallBastion, AfterBastion, EnsureBastion, Valid, Held, BastionTagsOf, BastionCovered;
    hide Replaces, Completes;
    hide ComesToEnsure, HonestEnsure, KnownAbsent, IdsKnown, ServerMade, GroupMade, NetworkSound, BalancerSound;
    ReplacedUnblockedIff(spec, ids, a.cloud, id, network, e.ensureBastion);
    hide BastionUnblocked;
  }

  lemma KeptFinalizer(w: World, id: Identity, e: Env)
    requires ReachesBastion(w, id, e)
    ensures Reconcile(w, id, e).stored.finalizer && !Reconcile(w, id, e).stored.deleting
  {
    hide Normal, AtBastion;
  }

  function Deleting(w: World): World { w.(stored := w.stored.(deleting := true)) }

  /** A working deletion pass on a record that does not cover: blocked, or a leak. */
  lemma StaleDeletion(w: World, id: Identity, d: Env)
    requires w.stored.deleting && w.stored.finalizer && CleanDeletion(w, id, d)
    requires Held(w.stored.spec, w.stored.status.bastion.ids, w.cloud, id)
    requires NetworkSound(w.stored.spec, w.stored.status, w.cloud, id)
    requires BalancerSound(w.stored.status, w.cloud, id, ClusterTagsOf(w.stored.spec, id))
    requires Detachable(w.cloud, NodeTagsOf(w.stored.spec, id))
    requires !BastionCovered(w.cloud, BastionTagsOf(w.stored.spec, id), w.stored.status.bastion.ids)
    ensures var next := Reconcile(w, id, d);
            && (Gone(next.stored) <==>
                  BastionUnblocked(w.cloud, BastionTagsOf(w.stored.spec, id), w.stored.status.bastion.ids))
            && (Gone(next.stored) ==> !AllGone(w.stored.spec, next.cloud, id))
  {
    var spec, st := w.stored.spec, Unpaused(w);
    HeldValid(spec, st.bastion.ids, w.cloud, id);
    RecordIsNoNodeGroup(spec, st.bastion.ids, w.cloud, id);
    UnblockedByBastion(spec, st, w.cloud, id, d);
    CleanTeardownFinishesIff(spec, st, w.cloud, id, d);
    if CleanUp(spec, st, w.cloud, id, d).go { StaleRecordLeaks(spec, st, w.cloud, id, d); }
    PassOnDeletion(w, id, d);
    hide Reconcile, CleanUp, ClusterModel.Delete, Valid, Held, Tagged, Detachable, BastionUnblocked, BastionCovered;
    hide AllGone, Unblocked, DeletionWorks, NodeTagsOf, BastionTagsOf, Labeling, ClusterTagsOf, OwnBalancers;
    hide NetworkCovered;
  }

  /** From any reachable state: if a pass hides a replaced bastion resource and deletion
      comes next, a deletion pass in which every call works removes the finalizer if
      and only if the server was not replaced, or the group with it; and then it
      leaves something behind. */
  lemma {:induction false} HiddenBlocksOrLeaks(w: World, id: Identity, e: Env, d: Env)
    requires Whole(w, id) && HonestCalls(e) && Labeling(ClusterTagsOf(w.stored.spec, id), e.balancerLabels)
    requires HidesBastion(w, id, e) && !HidesNetwork(w, id, e) && CleanDeletion(Reconcile(w, id, e), id, d)
    requires Detachable(Reconcile(w, id, e).cloud, NodeTagsOf(w.stored.spec, id))
    ensures var next := Reconcile(Deleting(Reconcile(w, id, e)), id, d);
            && (Gone(next.stored) <==> !BlocksTeardown(w, id, e))
            && (Gone(next.stored) ==> !AllGone(w.stored.spec, next.cloud, id))
  {
    HidingPass(w, id, e);
    NetworkTurnsStaleIff(w, id, e);
    PassBalancerSound(w, id, e, ClusterTagsOf(w.stored.spec, id));
    BastionTurnsStaleIff(w, id, e);
    hide Reconcile, HonestCalls, HidesBastion, HidesNetwork, Held, Covering, NetworkSound, BalancerSound, Detachable;
    hide BastionUnblocked, BastionCovered, NetworkCovered, AllGone, BlocksTeardown, DeletionWorks, EnsureBastion;
    hide NodeTagsOf, BastionTagsOf, Labeling, ClusterTagsOf, AtBastion;
    StaleDeletion(Deleting(Reconcile(w, id, e)), id, d);
  }

  lemma PassOnDeletion(w: World, id: Identity, d: Env)
    requires w.stored.deleting && w.stored.finalizer && CleanDeletion(w, id, d)
    ensures var s := ClusterModel.Delete(w.stored.spec, Unpaused(w), w.cloud, id, d);
            var next := Reconcile(w, id, d);
            (Gone(next.stored) <==> s.go) && next.cloud == s.cloud &&
            s == CleanUp(w.stored.spec, Unpaused(w), w.cloud, id, d)
  {
    hide CleanUp, Normal, DeletionWorks, Labeling;
  }

  lemma UnblockedByBastion(spec: Spec, st: Status, c: CloudState, id: Identity, e: Env)
    requires Held(spec, st.bastion.ids, c, id) && NetworkSound(spec, st, c, id)
    requires BalancerSound(st, c, id, ClusterTagsOf(spec, id)) && Labeling(ClusterTagsOf(spec, id), e.balancerLabels)
    requires Detachable(c, NodeTagsOf(spec, id))
    ensures Unblocked(spec, st, c, id, e) <==> BastionUnblocked(c, BastionTagsOf(spec, id), st.bastion.ids)
  {
    CoherentSeesOwn(c, ClusterTagsOf(spec, id), e.balancerLabels);
    hide Valid, BastionTagsOf, NodeTagsOf, ClusterTagsOf, Tagged, BastionUnblocked, GroupKept, BastionOnly, NodesOnly;
    hide Detachable, MatchingBalancers, OwnBalancers, BalancerName, NetworkCovered, IdsKnown, Labeling, Coherent;
  }

  /** Disabling the bastion, as an admitted spec update does. */
  function Disabled(w: World): World
  {
    w.(stored := w.stored.(spec := w.stored.spec.(bastionEnabled := false)))
  }

  /** And if, instead, the bastion is disabled after such a pass: a pass that reaches it
      with working calls persists an untrue Skipped exactly when the removal is not
      blocked. No patch needs to be lost on this way. */
  lemma {:induction false} HiddenThenSkippedIsUntrue(w: World, id: Identity, e: Env, d: Env)
    requires Whole(w, id) && HonestCalls(e) && HidesBastion(w, id, e)
    requires var w2 := Disabled(Reconcile(w, id, e));
             && !KnownAbsent(w2.stored.status) && ReachesBastion(w2, id, d) && d.finalPatchLands && HonestPass(d)
             && NodeSSHWorks(d.deleteNodeSSH, w2.cloud) && BastionWorks(d.deleteBastion)
             && Detachable(w2.cloud, NodeTagsOf(w.stored.spec, id))
    ensures var w2 := Disabled(Reconcile(w, id, e));
            !WorldSkipHolds(Reconcile(w2, id, d), id) <==> !BlocksTeardown(w, id, e)
  {
    var w1 := Reconcile(w, id, e);
    var w2 := Disabled(w1);
    var spec, ids := w2.stored.spec, w.stored.status.bastion.ids;
    HidingPass(w, id, e);
    BastionTurnsStaleIff(w, id, e);
    SameTags(w1.stored.spec, spec, id);
    HeldValid(w1.stored.spec, ids, w1.cloud, id);
    RecordIsNoNodeGroup(w1.stored.spec, ids, w1.cloud, id);
    NodeGroupUnique(w1.stored.spec, ids, w1.cloud, id);
    SkippedTurnsFalseIff(w2, id, d);
    Reached(w2, id, d);
    var a := AtBastion(spec, Unpaused(w2), w2.cloud, id, d);
    SameRemoval(spec, w2.cloud, a.cloud, id, ids, d);
    RemoveBastionWorks(spec, a.status, a.cloud, id, d, {});
    hide Reconcile, AtBastion, RemoveBastion, Whole, Held, Valid, Tagged, Detachable, BastionUnblocked;
    hide BastionCovered, BlocksTeardown;
    hide BastionTagsOf, NodeTagsOf, NodeSSHWorks, BastionWorks, KnownAbsent, BastionStage, HidesBastion, AtMostOne;
    hide HonestCalls, Mark;
    hide BastionNetwork, EnsureBastion, HonestPass, GroupMade;
  }

  lemma NodeGroupUnique(spec: Spec, ids: BastionIDs, c: CloudState, id: Identity)
    requires Held(spec, ids, c, id)
    ensures AtMostOne(Tagged(c, Groups, NodeTagsOf(spec, id)))
  {
    hide Tagged, BastionTagsOf, NodeTagsOf, Attached, Valid;
  }
}
