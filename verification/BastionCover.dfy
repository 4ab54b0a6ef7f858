/** The recorded bastion IDs and what carries the bastion's tags: exactly which passes
    leave a record that hides a real resource. */
module BastionCover {
  import opened Api
  import opened Labels
  import opened CloudModel
  import opened CloudValidity
  import opened Removal
  import opened ClusterModel
  import opened ClusterFrames
  import opened ClusterTeardown
  import opened BastionMaking
  import opened BastionStages

  /** Every recorded ID is empty or names all that carries the bastion's tags. */
  ghost predicate Covering(spec: Spec, ids: BastionIDs, c: CloudState, id: Identity)
  {
    Valid(c) && BastionCovered(c, BastionTagsOf(spec, id), ids)
  }

  ghost predicate WorldCovers(w: World, id: Identity)
  {
    Covering(w.stored.spec, w.stored.status.bastion.ids, w.cloud, id)
  }

  lemma ShrinkingCovers(spec: Spec, ids: BastionIDs, c: CloudState, c': CloudState, id: Identity)
    requires Covering(spec, ids, c, id) && Valid(c') && Shrinks(spec, c, c', id)
    ensures Covering(spec, ids, c', id) && Covering(spec, BastionIDs(0, 0, 0), c', id)
  {
    hide Valid, Tagged, BastionTagsOf, NodeTagsOf;
  }

  // -------------------------------------------------------------- the bastion stage

  /** The stage comes to EnsureBastion. */
  predicate ComesToEnsure(spec: Spec, st: Status, e: Env)
  {
    spec.bastionEnabled && spec.bastionValid && e.cloudInitFound && !NeedsRecreate(st, e)
  }

  lemma EnsureCase(spec: Spec, st: Status, c: CloudState, id: Identity, e: Env)
    requires ComesToEnsure(spec, st, e)
    ensures var op := EnsureBastion(c, BastionTagsOf(spec, id), NetworkID(spec, st), e.ensureBastion);
            var call := CallBastion(spec, st, c, id, e);
            && call.cloud == op.cloud && (call.BastionIs? || call.BastionRejected?)
            && (call.BastionIs? <==> op.result.Ok?) && (op.result.Ok? ==> call.ids == op.result.value)
  {
    hide RemoveBastion, EnsureBastion, KnownAbsent, NeedsRecreate;
  }

  lemma OtherCase(spec: Spec, st: Status, c: CloudState, id: Identity, e: Env)
    requires Valid(c) && !ComesToEnsure(spec, st, e)
    ensures var call := CallBastion(spec, st, c, id, e); !call.BastionIs? && Shrinks(spec, c, call.cloud, id)
  {
    RemoveBastionEffect(spec, st, c, id, e, {});
    RemoveBastionEffect(spec, st, c, id, e, {NotFound});
    SamePartShrinks(spec, c, c, id);
    hide RemoveBastion, EnsureBastion, KnownAbsent, NeedsRecreate, Valid, Shrinks;
  }

  lemma AfterRecords(st: Status, call: BastionCall, e: Env)
    ensures var ids' := AfterBastion(st, call, e).status.bastion.ids;
            && AfterBastion(st, call, e).cloud == call.cloud
            && (call.BastionIs? ==> ids' == call.ids)
            && (call.BastionRejected? ==> ids' == st.bastion.ids)
            && (!call.BastionIs? ==> ids' == st.bastion.ids || ids' == BastionIDs(0, 0, 0))
  {
    hide KnownAbsent;
  }

  /** Coverage through the stage, for the old record and for the one it writes. */
  lemma StageCovers(spec: Spec, st: Status, c: CloudState, id: Identity, e: Env)
    requires Covering(spec, st.bastion.ids, c, id) && HonestEnsure(e.ensureBastion)
    ensures var tags, network := BastionTagsOf(spec, id), NetworkID(spec, st);
            var anew := ComesToEnsure(spec, st, e) && Replaces(c, tags, network, st.bastion.ids, e.ensureBastion);
            var b := BastionStage(spec, st, c, id, e);
            && (!anew ==> Covering(spec, st.bastion.ids, b.cloud, id))
            && (!anew || Completes(c, tags, network, e.ensureBastion) ==>
                Covering(spec, b.status.bastion.ids, b.cloud, id))
            && (IdsKnown(c, st.bastion.ids) && anew ==>
                  && !BastionCovered(b.cloud, tags, st.bastion.ids)
                  && (!Completes(c, tags, network, e.ensureBastion) ==> b.status.bastion.ids == st.bastion.ids))
  {
    var tags, network := BastionTagsOf(spec, id), NetworkID(spec, st);
    var call := CallBastion(spec, st, c, id, e);
    AfterRecords(st, call, e);
    RoleTags(spec, id);
    if ComesToEnsure(spec, st, e) {
      EnsureCase(spec, st, c, id, e);
      EnsureBastionValid(c, tags, network, e.ensureBastion);
      StillCoversIff(c, tags, network, st.bastion.ids, e.ensureBastion);
      EnsuredBastionIsTheOne(c, tags, network, e.ensureBastion);
      EnsureEffect(c, tags, network, e.ensureBastion);
    } else {
      OtherCase(spec, st, c, id, e);
      CallBastionCloud(spec, st, c, id, e);
      ShrinkingCovers(spec, st.bastion.ids, c, call.cloud, id);
    }
    hide CallBastion, AfterBastion, EnsureBastion, Valid, Tagged, BastionTagsOf, NodeTagsOf, Replaces, Completes;
    hide Shrinks;
    hide GroupMade, ServerMade, AddressMade, ComesToEnsure, HonestEnsure;
  }

  // ------------------------------------------------------------------- whole passes

  predicate HonestPass(e: Env)
  {
    HonestRemoval(e) && HonestEnsure(e.ensureBastion)
  }

  ghost function BastionNetwork(w: World, id: Identity, e: Env): Id
  {
    NetworkID(w.stored.spec, AtBastion(w.stored.spec, Unpaused(w), w.cloud, id, e).status)
  }

  /** The pass gets as far as EnsureBastion. */
  ghost predicate TriesBastion(w: World, id: Identity, e: Env)
  {
    ReachesBastion(w, id, e) && ComesToEnsure(w.stored.spec, w.stored.status, e)
  }

  /** It makes a new resource of a kind for which an ID is recorded. */
  ghost predicate ReplacesBastion(w: World, id: Identity, e: Env)
  {
    && TriesBastion(w, id, e)
    && Replaces(w.cloud, BastionTagsOf(w.stored.spec, id), BastionNetwork(w, id, e), w.stored.status.bastion.ids,
                e.ensureBastion)
  }

  /** And the new ID does not get into the record: EnsureBastion does not go through,
      or the patch is lost. */
  ghost predicate HidesBastion(w: World, id: Identity, e: Env)
  {
    && ReplacesBastion(w, id, e)
    && !(e.finalPatchLands &&
         Completes(w.cloud, BastionTagsOf(w.stored.spec, id), BastionNetwork(w, id, e), e.ensureBastion))
  }

  /** Networks and load balancers do not matter for what EnsureBastion makes. */
  lemma SameMaking(c: CloudState, c': CloudState, tags: Tags, network: Id, ids: BastionIDs, calls: EnsureBastionCalls)
    requires c'.servers == c.servers && c'.addresses == c.addresses && c'.groups == c.groups
    ensures Replaces(c', tags, network, ids, calls) == Replaces(c, tags, network, ids, calls)
    ensures Completes(c', tags, network, calls) == Completes(c, tags, network, calls)
    ensures GroupMade(c', tags, network, calls) == GroupMade(c, tags, network, calls)
    ensures ServerMade(c', tags, network, calls) == ServerMade(c, tags, network, calls)
    ensures IdsKnown(c', ids) == IdsKnown(c, ids)
    ensures BastionCovered(c', tags, ids) == BastionCovered(c, tags, ids)
  {
    TaggedSame(c, c', Groups, tags);
    TaggedSame(c, c', Servers, tags);
    TaggedSame(c, c', Addresses, tags);
    hide Tagged;
  }

  lemma SameDecision(spec: Spec, st: Status, st': Status, e: Env)
    requires st'.bastion == st.bastion
    ensures ComesToEnsure(spec, st', e) == ComesToEnsure(spec, st, e)
  {
  }

  /** A pass that reaches the bastion: coverage of the persisted record, exactly. */
  lemma ReachedCovers(w: World, id: Identity, e: Env)
    requires WorldCovers(w, id) && HonestEnsure(e.ensureBastion) && ReachesBastion(w, id, e)
    ensures !HidesBastion(w, id, e) ==> WorldCovers(Reconcile(w, id, e), id)
    ensures HidesBastion(w, id, e) && IdsKnown(w.cloud, w.stored.status.bastion.ids) ==>
            !WorldCovers(Reconcile(w, id, e), id)
  {
    var spec, st := w.stored.spec, w.stored.status;
    Reached(w, id, e);
    var a := AtBastion(spec, Unpaused(w), w.cloud, id, e);
    var tags, network := BastionTagsOf(spec, id), NetworkID(spec, a.status);
    SameMaking(w.cloud, a.cloud, tags, network, st.bastion.ids, e.ensureBastion);
    SameDecision(spec, st, a.status, e);
    StageCovers(spec, a.status, a.cloud, id, e);
    hide Reconcile, AtBastion, BastionStage, Valid, BastionTagsOf, BastionCovered, Replaces, Completes, ComesToEnsure;
    hide HonestEnsure, KnownAbsent, IdsKnown;
  }

  /** Whatever fails and whichever patch is lost, a pass keeps the records covering
      unless it hides a replaced resource. */
  lemma {:induction false} PassCovers(w: World, id: Identity, e: Env)
    requires WorldCovers(w, id) && HonestEnsure(e.ensureBastion) && !HidesBastion(w, id, e)
    ensures WorldCovers(Reconcile(w, id, e), id)
  {
    if ReachesBastion(w, id, e) {
      ReachedCovers(w, id, e);
    } else {
      NotReached(w, id, e);
      ShrinkingCovers(w.stored.spec, w.stored.status.bastion.ids, w.cloud, Reconcile(w, id, e).cloud, id);
    }
    hide Reconcile, ReachesBastion, HidesBastion, Valid, BastionCovered, Shrinks, KnownAbsent, HonestEnsure;
  }

  /** From records that cover, a pass leaves a bastion record that hides a real
      resource if and only if it comes to EnsureBastion, makes a resource of a kind
      for which an ID is recorded (nothing tagged is left of it, and the creation is
      reached and not rejected), and then EnsureBastion does not go through or the
      patch is lost. */
  lemma {:induction false} BastionTurnsStaleIff(w: World, id: Identity, e: Env)
    requires WorldCovers(w, id) && HonestEnsure(e.ensureBastion) && IdsKnown(w.cloud, w.stored.status.bastion.ids)
    ensures var w' := Reconcile(w, id, e);
            !BastionCovered(w'.cloud, BastionTagsOf(w'.stored.spec, id), w'.stored.status.bastion.ids) <==>
              HidesBastion(w, id, e)
  {
    if HidesBastion(w, id, e) {
      ReachedCovers(w, id, e);
      Reached(w, id, e);
    } else {
      PassCovers(w, id, e);
    }
    hide Reconcile, HidesBastion, Valid, BastionCovered, IdsKnown, BastionStage, AtBastion, KnownAbsent;
  }
}
