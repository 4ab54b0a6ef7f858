/** The condition reason Skipped is trusted as "already cleaned up": exactly which
    passes make it untrue. */
module BastionSkip {
  import opened CloudModel
  import opened CloudValidity
  import opened Removal
  import opened ClusterModel
  import opened ClusterFrames
  import opened ClusterTeardown
  import opened CleanTeardown
  import opened BastionMaking
  import opened BastionStages
  import opened BastionCover
  import Conditions

  /** Nothing recorded and nothing there. */
  predicate Cleaned(spec: Spec, st: Status, c: CloudState, id: Identity)
  {
    && !HasBastionStatus(st.bastion)
    && BastionGone(c, BastionTagsOf(spec, id)) && Tagged(c, Groups, NodeTagsOf(spec, id)) == {}
  }

  predicate SkipHolds(spec: Spec, st: Status, c: CloudState, id: Identity)
  {
    KnownAbsent(st) ==> Cleaned(spec, st, c, id)
  }

  predicate WorldSkipHolds(w: World, id: Identity)
  {
    SkipHolds(w.stored.spec, w.stored.status, w.cloud, id)
  }

  lemma ShrinkingKeepsSkip(spec: Spec, st: Status, st': Status, c: CloudState, c': CloudState, id: Identity)
    requires SkipHolds(spec, st, c, id) && Shrinks(spec, c, c', id) && (KnownAbsent(st') ==> KnownAbsent(st))
    requires st'.bastion == st.bastion || st'.bastion == NoBastion
    ensures SkipHolds(spec, st', c', id)
  {
    hide Tagged, BastionTagsOf, NodeTagsOf, KnownAbsent;
  }

  // -------------------------------------------------------------- the bastion stage

  /** The stage removes the bastion because it is disabled, and that goes through. */
  ghost predicate CleansUp(spec: Spec, st: Status, c: CloudState, id: Identity, e: Env)
  {
    !spec.bastionEnabled && !KnownAbsent(st) && RemoveBastion(spec, st, c, id, e, {}).result.Ok?
  }

  lemma AbsentCase(spec: Spec, st: Status, c: CloudState, id: Identity, e: Env)
    ensures var call := CallBastion(spec, st, c, id, e);
            && (call.BastionAbsent? <==> !spec.bastionEnabled && (KnownAbsent(st) || CleansUp(spec, st, c, id, e)))
            && (call.BastionRejected? ==> call.reason != Conditions.Skipped)
            && (call.BastionAbsent? ==>
                  call.cloud == if KnownAbsent(st) then c else RemoveBastion(spec, st, c, id, e, {}).cloud)
  {
    hide RemoveBastion, EnsureBastion, NeedsRecreate, KnownAbsent;
  }

  lemma AfterSays(st: Status, call: BastionCall, e: Env)
    requires call.BastionRejected? ==> call.reason != Conditions.Skipped
    ensures var b := AfterBastion(st, call, e);
            && (KnownAbsent(b.status) <==> call.BastionAbsent?) && b.cloud == call.cloud
            && (call.BastionAbsent? ==> b.status.bastion == if KnownAbsent(st) then st.bastion else NoBastion)
  {
  }

  /** Only a disabled bastion ends as Skipped: known absent before, or just removed. */
  lemma SkippedAfter(spec: Spec, st: Status, c: CloudState, id: Identity, e: Env)
    ensures var b := BastionStage(spec, st, c, id, e);
            && (KnownAbsent(b.status) <==> !spec.bastionEnabled && (KnownAbsent(st) || CleansUp(spec, st, c, id, e)))
            && (!spec.bastionEnabled && KnownAbsent(st) ==> b.cloud == c && b.status.bastion == st.bastion)
            && (CleansUp(spec, st, c, id, e) ==>
                  b.cloud == RemoveBastion(spec, st, c, id, e, {}).cloud && b.status.bastion == NoBastion)
  {
    AbsentCase(spec, st, c, id, e);
    AfterSays(st, CallBastion(spec, st, c, id, e), e);
    hide CallBastion, AfterBastion, RemoveBastion, KnownAbsent;
  }

  lemma StageMakesSkipFalseIff(spec: Spec, st: Status, c: CloudState, id: Identity, e: Env)
    requires Valid(c) && HonestPass(e) && SkipHolds(spec, st, c, id)
    ensures var b := BastionStage(spec, st, c, id, e);
            SkipHolds(spec, b.status, b.cloud, id) <==>
            !(CleansUp(spec, st, c, id, e) && !BastionCovered(c, BastionTagsOf(spec, id), st.bastion.ids))
  {
    SkippedAfter(spec, st, c, id, e);
    if CleansUp(spec, st, c, id, e) { HonestlyRemovedIff(spec, st, c, id, e, {}); }
    hide BastionStage, RemoveBastion, KnownAbsent, Valid, Tagged, BastionTagsOf, NodeTagsOf, BastionGone;
    hide BastionCovered;
  }

  /** With nothing there, the stage leaves something exactly when it comes to
      EnsureBastion and that gets its group created. */
  lemma StageLeavesSomethingIff(spec: Spec, st: Status, c: CloudState, id: Identity, e: Env)
    requires Valid(c) && HonestPass(e) && KnownAbsent(st) && Cleaned(spec, st, c, id)
    ensures Cleaned(spec, st, BastionStage(spec, st, c, id, e).cloud, id) <==>
            !(ComesToEnsure(spec, st, e) && GroupMade(c, BastionTagsOf(spec, id), NetworkID(spec, st), e.ensureBastion))
  {
    var tags, network := BastionTagsOf(spec, id), NetworkID(spec, st);
    var call := CallBastion(spec, st, c, id, e);
    AfterRecords(st, call, e);
    if ComesToEnsure(spec, st, e) {
      RoleTags(spec, id);
      EnsureCase(spec, st, c, id, e);
      LeavesSomethingIff(c, tags, network, e.ensureBastion);
      EnsureKeepsNodeGroups(spec, c, id, network, e.ensureBastion);
    } else {
      OtherCase(spec, st, c, id, e);
    }
    hide CallBastion, AfterBastion, EnsureBastion, Valid, Tagged, BastionTagsOf, NodeTagsOf, GroupMade, KnownAbsent;
    hide ComesToEnsure;
  }

  // ------------------------------------------------------------------- whole passes

  /** A pass makes the first resource of a bastion under a persisted Skipped, and its
      patch is lost. */
  ghost predicate LosesFirst(w: World, id: Identity, e: Env)
  {
    && KnownAbsent(w.stored.status) && TriesBastion(w, id, e) && !e.finalPatchLands
    && GroupMade(w.cloud, BastionTagsOf(w.stored.spec, id), BastionNetwork(w, id, e), e.ensureBastion)
  }

  /** A pass removes a disabled bastion by a record that hides a real resource. */
  ghost predicate TrustsStale(w: World, id: Identity, e: Env)
  {
    && ReachesBastion(w, id, e) && e.finalPatchLands
    && !BastionCovered(w.cloud, BastionTagsOf(w.stored.spec, id), w.stored.status.bastion.ids)
    && var a := AtBastion(w.stored.spec, Unpaused(w), w.cloud, id, e);
       CleansUp(w.stored.spec, a.status, a.cloud, id, e)
  }

  /** With working removal calls, exactly when the record hides a real resource and
      nothing blocks the removal: one node-SSH group at most, its servers recognized,
      and the bastion's group free to go. */
  lemma {:induction false} TrustsStaleIff(w: World, id: Identity, e: Env)
    requires Valid(w.cloud) && NodeSSHWorks(e.deleteNodeSSH, w.cloud) && BastionWorks(e.deleteBastion)
    requires w.stored.status.bastion.ids.group !in Tagged(w.cloud, Groups, NodeTagsOf(w.stored.spec, id))
    ensures var spec, ids, n := w.stored.spec, w.stored.status.bastion.ids, NodeTagsOf(w.stored.spec, id);
            TrustsStale(w, id, e) <==>
              && ReachesBastion(w, id, e) && e.finalPatchLands && !spec.bastionEnabled && !KnownAbsent(w.stored.status)
              && !BastionCovered(w.cloud, BastionTagsOf(spec, id), ids)
              && AtMostOne(Tagged(w.cloud, Groups, n)) && Detachable(w.cloud, n)
              && BastionUnblocked(w.cloud, BastionTagsOf(spec, id), ids)
  {
    if ReachesBastion(w, id, e) {
      var spec, ids := w.stored.spec, w.stored.status.bastion.ids;
      Reached(w, id, e);
      var a := AtBastion(spec, Unpaused(w), w.cloud, id, e);
      SameRemoval(spec, w.cloud, a.cloud, id, ids, e);
      RemoveBastionWorks(spec, a.status, a.cloud, id, e, {});
      hide Reconcile, AtBastion, BastionStage, RemoveBastion, Valid, Tagged, Detachable, BastionUnblocked, AtMostOne;
      hide BastionCovered, BastionTagsOf, NodeTagsOf, NodeSSHWorks, BastionWorks, KnownAbsent, ReachesBastion;
    }
  }

  /** From any state in which Skipped is true or not said, a pass makes a persisted
      Skipped untrue if and only if it makes the first resource of a bastion under it
      and loses its patch, or removes a disabled bastion by a stale record. */
  lemma {:induction false} SkippedTurnsFalseIff(w: World, id: Identity, e: Env)
    requires Valid(w.cloud) && WorldSkipHolds(w, id) && HonestPass(e)
    ensures !WorldSkipHolds(Reconcile(w, id, e), id) <==> LosesFirst(w, id, e) || TrustsStale(w, id, e)
  {
    var spec, st := w.stored.spec, w.stored.status;
    if !ReachesBastion(w, id, e) {
      NotReached(w, id, e);
      ShrinkingKeepsSkip(spec, st, Reconcile(w, id, e).stored.status, w.cloud, Reconcile(w, id, e).cloud, id);
    } else if e.finalPatchLands {
      LandedSkip(w, id, e);
    } else {
      LostSkip(w, id, e);
    }
    hide Reconcile, ReachesBastion, Valid, Cleaned, KnownAbsent, BastionCovered, GroupMade, Shrinks, AtBastion;
    hide CleansUp;
  }

  lemma SameCleaned(spec: Spec, st: Status, st': Status, c: CloudState, c': CloudState, id: Identity)
    requires c'.servers == c.servers && c'.addresses == c.addresses && c'.groups == c.groups
    requires st'.bastion == st.bastion
    ensures Cleaned(spec, st', c', id) == Cleaned(spec, st, c, id)
    ensures BastionCovered(c', BastionTagsOf(spec, id), st.bastion.ids) ==
            BastionCovered(c, BastionTagsOf(spec, id), st.bastion.ids)
    ensures forall network, calls :: GroupMade(c', BastionTagsOf(spec, id), network, calls) ==
                                     GroupMade(c, BastionTagsOf(spec, id), network, calls)
  {
    var b, n := BastionTagsOf(spec, id), NodeTagsOf(spec, id);
    TaggedSame(c, c', Servers, b);
    TaggedSame(c, c', Addresses, b);
    TaggedSame(c, c', Groups, b);
    TaggedSame(c, c', Groups, n);
    hide Tagged, BastionTagsOf, NodeTagsOf;
  }

  lemma LandedSkip(w: World, id: Identity, e: Env)
    requires Valid(w.cloud) && WorldSkipHolds(w, id) && HonestPass(e) && ReachesBastion(w, id, e) && e.finalPatchLands
    ensures WorldSkipHolds(Reconcile(w, id, e), id) <==> !TrustsStale(w, id, e)
  {
    var spec, st := w.stored.spec, w.stored.status;
    Reached(w, id, e);
    var a := AtBastion(spec, Unpaused(w), w.cloud, id, e);
    SameCleaned(spec, st, a.status, w.cloud, a.cloud, id);
    StageMakesSkipFalseIff(spec, a.status, a.cloud, id, e);
    var b := BastionStage(spec, a.status, a.cloud, id, e);
    SameCleaned(spec, b.status, Reconcile(w, id, e).stored.status, b.cloud, b.cloud, id);
    hide Reconcile, AtBastion, BastionStage, Valid, BastionTagsOf, BastionCovered, Cleaned, KnownAbsent, HonestPass;
    hide CleansUp;
    hide GroupMade;
  }

  lemma LostSkip(w: World, id: Identity, e: Env)
    requires Valid(w.cloud) && WorldSkipHolds(w, id) && HonestPass(e) && ReachesBastion(w, id, e) && !e.finalPatchLands
    ensures WorldSkipHolds(Reconcile(w, id, e), id) <==> !LosesFirst(w, id, e)
  {
    var spec, st := w.stored.spec, w.stored.status;
    Reached(w, id, e);
    var a := AtBastion(spec, Unpaused(w), w.cloud, id, e);
    SameCleaned(spec, st, a.status, w.cloud, a.cloud, id);
    SameDecision(spec, st, a.status, e);
    if KnownAbsent(st) { StageLeavesSomethingIff(spec, a.status, a.cloud, id, e); }
    var b := BastionStage(spec, a.status, a.cloud, id, e);
    SameCleaned(spec, a.status, Reconcile(w, id, e).stored.status, b.cloud, b.cloud, id);
    hide Reconcile, AtBastion, BastionStage, Valid, BastionTagsOf, BastionCovered, Cleaned, KnownAbsent, HonestPass;
    hide ComesToEnsure;
    hide GroupMade;
  }
}
