/** The recorded network and what carries the cluster's tags: exactly which passes
    leave a record that hides the real network. */
module NetworkCover {
  import opened Api
  import opened Labels
  import opened CloudModel
  import opened Removal
  import opened ClusterModel
  import opened ClusterFrames
  import opened ClusterTeardown
  import opened BastionStages
  import ClusterNetwork
  import Conditions

  function OwnNetworks(spec: Spec, c: CloudState, id: Identity): set<Id>
  {
    Tagged(c, Networks, ClusterTagsOf(spec, id))
  }

  /** At most one network carries the tags, and a recorded ID was handed out some time
      and names it. */
  ghost predicate NetworkSound(spec: Spec, st: Status, c: CloudState, id: Identity)
  {
    && ValidStore(c.networks) && st.network < c.networks.nextID
    && AtMostOne(OwnNetworks(spec, c, id)) && NetworkCovered(spec, st, c, id)
  }

  /** Networks went away, or only others came; the record is the old one or none. */
  lemma NetworkShrinks(spec: Spec, st: Status, st': Status, c: CloudState, c': CloudState, id: Identity)
    requires NetworkSound(spec, st, c, id) && OwnNetworks(spec, c', id) <= OwnNetworks(spec, c, id)
    requires ValidStore(c'.networks) && c.networks.nextID <= c'.networks.nextID
    requires st'.network == st.network || st'.network == 0
    ensures NetworkSound(spec, st', c', id)
  {
    hide Tagged, ClusterTagsOf;
  }

  lemma SameNetworks(spec: Spec, c: CloudState, c': CloudState, id: Identity)
    requires c'.networks == c.networks
    ensures OwnNetworks(spec, c', id) == OwnNetworks(spec, c, id)
  {
  }

  lemma DeletedNetworks(spec: Spec, c: CloudState, n: Id, o: Outcome, id: Identity)
    requires ValidStore(c.networks)
    ensures var c' := CloudModel.Delete(c, Networks, n, o).cloud;
            && OwnNetworks(spec, c', id) <= OwnNetworks(spec, c, id)
            && ValidStore(c'.networks) && c'.networks.nextID == c.networks.nextID
  {
    hide CloudModel.Delete, ClusterTagsOf;
    DeleteShrinks(c, Networks, n, o);
  }

  // ------------------------------------------------------------------ the network calls

  /** No network is recorded or the recorded one is gone, none carries the tags, and
      the creation is not rejected. */
  ghost predicate MakesNetwork(spec: Spec, st: Status, c: CloudState, id: Identity, e: Env)
  {
    && spec.network == 0 && (st.network == 0 || Get(c, Networks, st.network, e.getNetwork) == Err(NotFound))
    && e.createNetwork.find.Works? && OwnNetworks(spec, c, id) == {} && !e.createNetwork.create.Rejected?
  }

  /** The network calls add a network exactly then, and otherwise leave all as it is. */
  lemma CallNetworkAdds(spec: Spec, st: Status, c: CloudState, id: Identity, e: Env)
    requires spec.network == 0 && Truthful(e.createNetwork.find)
    ensures var call := CallNetwork(spec, st, c, id, e);
            if MakesNetwork(spec, st, c, id, e)
            then
              && OwnNetworks(spec, call.cloud, id) == {c.networks.nextID}
              && (if e.createNetwork.create.Works? then call.NetworkIs? && call.network == c.networks.nextID
                  else call.NetworkMissing?)
            else
              && call.cloud == c
              && (call.NetworkIs? ==> (call.network == st.network && st.network in c.networks.items) ||
                                      OwnNetworks(spec, c, id) == {call.network})
  {
    RoleTags(spec, id);
    var tags := ClusterTagsOf(spec, id);
    assert Matches(tags, tags);
    FoundIsTheOne(c, Networks, tags, e.createNetwork.find);
    hide ClusterTagsOf, Matches;
  }

  lemma FindOrCreateNetwork(c: CloudState, tags: Tags, calls: FindOrCreateCalls)
    requires ValidStore(c.networks) && tags != map[]
    ensures var op := FindOrCreate(c, Networks, tags, calls);
            && ValidStore(op.cloud.networks) && c.networks.nextID <= op.cloud.networks.nextID
            && (op.result.Ok? ==> op.result.value < op.cloud.networks.nextID)
  {
    FoundIsTheOne(c, Networks, tags, calls.find);
    assert forall n :: n in Tagged(c, Networks, tags) ==> n in c.networks.items;
    hide Tagged, Only;
  }

  /** What the calls leave is well formed, and a network they report exists. */
  lemma CallNetworkValid(spec: Spec, st: Status, c: CloudState, id: Identity, e: Env)
    requires ValidStore(c.networks)
    ensures var call := CallNetwork(spec, st, c, id, e);
            && ValidStore(call.cloud.networks) && c.networks.nextID <= call.cloud.networks.nextID
            && (call.NetworkIs? ==> call.network < call.cloud.networks.nextID)
  {
    RoleTags(spec, id);
    FindOrCreateNetwork(c, ClusterTagsOf(spec, id), e.createNetwork);
    hide ClusterTagsOf, FindOrCreate;
  }

  // ------------------------------------------------------------------------ whole passes

  /** The pass gets as far as the network calls. */
  ghost predicate ReachesNetwork(w: World, id: Identity, e: Env)
  {
    && !Gone(w.stored) && e.ownersFound && !e.paused && !w.stored.deleting
    && (w.stored.finalizer || e.finalizerPatchLands)
    && AtNetwork(Unpaused(w), w.cloud, id, e).go
  }

  /** It replaces a recorded network that is gone, and the new ID does not get into the
      record: the creation is reported failed, or the patch is lost. */
  ghost predicate HidesNetwork(w: World, id: Identity, e: Env)
  {
    && ReachesNetwork(w, id, e) && w.stored.status.network != 0
    && MakesNetwork(w.stored.spec, w.stored.status, w.cloud, id, e)
    && !(e.finalPatchLands && e.createNetwork.create.Works?)
  }

  /** A pass that makes a network. */
  lemma MadeNetwork(w: World, id: Identity, e: Env)
    requires NetworkSound(w.stored.spec, w.stored.status, w.cloud, id) && Truthful(e.createNetwork.find)
    requires ReachesNetwork(w, id, e) && MakesNetwork(w.stored.spec, w.stored.status, w.cloud, id, e)
    ensures var w' := Reconcile(w, id, e);
            NetworkSound(w'.stored.spec, w'.stored.status, w'.cloud, id) <==> !HidesNetwork(w, id, e)
    ensures var w' := Reconcile(w, id, e);
            NetworkCovered(w'.stored.spec, w'.stored.status, w'.cloud, id) <==> !HidesNetwork(w, id, e)
  {
    var spec, st' := w.stored.spec, Unpaused(w);
    SameMakes(spec, w.stored.status, st', w.cloud, id, e);
    ClusterNetwork.NormalNetworks(spec, st', w.cloud, id, e);
    CallNetworkAdds(spec, st', w.cloud, id, e);
    CallNetworkValid(spec, st', w.cloud, id, e);
    SameNetworks(spec, CallNetwork(spec, st', w.cloud, id, e).cloud, Normal(spec, st', w.cloud, id, e).cloud, id);
    hide Normal, CallNetwork, AtNetwork, Tagged, ClusterTagsOf, MakesNetwork;
    assert w.cloud.networks.nextID in {w.cloud.networks.nextID};
  }

  lemma SameMakes(spec: Spec, st: Status, st': Status, c: CloudState, id: Identity, e: Env)
    requires st'.network == st.network
    ensures MakesNetwork(spec, st', c, id, e) == MakesNetwork(spec, st, c, id, e)
  {
  }

  /** Any other normal pass. */
  lemma NoNetworkMade(spec: Spec, st: Status, c: CloudState, id: Identity, e: Env)
    requires NetworkSound(spec, st, c, id) && Truthful(e.createNetwork.find)
    requires AtNetwork(st, c, id, e).go ==> !MakesNetwork(spec, st, c, id, e)
    ensures var n := Normal(spec, st, c, id, e);
            NetworkSound(spec, st, n.cloud, id) && NetworkSound(spec, n.status, n.cloud, id)
  {
    ClusterNetwork.NormalNetworks(spec, st, c, id, e);
    var call := CallNetwork(spec, st, c, id, e);
    var n := Normal(spec, st, c, id, e);
    if spec.network != 0 { ClusterNetwork.CallNetworkUnmanaged(spec, st, c, id, e); }
    else { CallNetworkAdds(spec, st, c, id, e); }
    CallNetworkValid(spec, st, c, id, e);
    SameNetworks(spec, c, n.cloud, id);
    NetworkShrinks(spec, st, st, c, n.cloud, id);
    hide Normal, CallNetwork, AtNetwork, Tagged, ClusterTagsOf, MakesNetwork;
  }

  lemma DeletionNetworkSound(spec: Spec, st: Status, c: CloudState, id: Identity, e: Env)
    requires NetworkSound(spec, st, c, id)
    ensures var s := ClusterModel.Delete(spec, st, c, id, e);
            NetworkSound(spec, st, s.cloud, id) && NetworkSound(spec, s.status, s.cloud, id)
  {
    hide ClusterModel.Delete, OwnNetworks, NetworkToDelete, CloudModel.Delete, NetworkCovered;
    ClusterNetwork.DeletionNetworks(spec, st, c, id, e);
    var s := ClusterModel.Delete(spec, st, c, id, e);
    var target := NetworkToDelete(spec, st, c, id, e);
    if target.Ok? { DeletedNetworks(spec, c, target.value, e.deleteNetwork, id); }
    if s.cloud.networks == c.networks {
      SameNetworks(spec, c, s.cloud, id);
    } else {
      SameNetworks(spec, CloudModel.Delete(c, Networks, target.value, e.deleteNetwork).cloud, s.cloud, id);
    }
    NetworkShrinks(spec, st, st, c, s.cloud, id);
    NetworkShrinks(spec, st, s.status, c, s.cloud, id);
  }

  lemma OtherPass(w: World, id: Identity, e: Env)
    requires NetworkSound(w.stored.spec, w.stored.status, w.cloud, id) && Truthful(e.createNetwork.find)
    requires !(ReachesNetwork(w, id, e) && MakesNetwork(w.stored.spec, w.stored.status, w.cloud, id, e))
    ensures var w' := Reconcile(w, id, e); NetworkSound(w'.stored.spec, w'.stored.status, w'.cloud, id)
  {
    var spec, st, st', c := w.stored.spec, w.stored.status, Unpaused(w), w.cloud;
    SameMakes(spec, st, st', c, id, e);
    NetworkShrinks(spec, st, st', c, c, id);
    NetworkShrinks(spec, st, Mark(st, Paused, true, Conditions.IsPaused), c, c, id);
    DeletionNetworkSound(spec, st', c, id, e);
    var d := ClusterModel.Delete(spec, st', c, id, e);
    NetworkShrinks(spec, st', st, d.cloud, d.cloud, id);
    if AtNetwork(st', c, id, e).go ==> !MakesNetwork(spec, st', c, id, e) {
      NoNetworkMade(spec, st', c, id, e);
      var n := Normal(spec, st', c, id, e);
      NetworkShrinks(spec, st', st, n.cloud, n.cloud, id);
    }
    hide Normal, ClusterModel.Delete, AtNetwork, NetworkSound, MakesNetwork, OwnNetworks;
  }

  /** From a sound record, a pass leaves a record that hides the real network if and
      only if it replaces a recorded network that is gone and then the creation is
      reported failed or the patch is lost; any other pass keeps the record sound. */
  lemma {:induction false} NetworkTurnsStaleIff(w: World, id: Identity, e: Env)
    requires NetworkSound(w.stored.spec, w.stored.status, w.cloud, id) && Truthful(e.createNetwork.find)
    ensures var w' := Reconcile(w, id, e);
            && (!NetworkCovered(w'.stored.spec, w'.stored.status, w'.cloud, id) <==> HidesNetwork(w, id, e))
            && (NetworkSound(w'.stored.spec, w'.stored.status, w'.cloud, id) <==> !HidesNetwork(w, id, e))
  {
    if ReachesNetwork(w, id, e) && MakesNetwork(w.stored.spec, w.stored.status, w.cloud, id, e) {
      MadeNetwork(w, id, e);
    } else {
      OtherPass(w, id, e);
    }
    hide Reconcile, ReachesNetwork, MakesNetwork, NetworkCovered, OwnNetworks;
  }
}
