/** A bastion under an untrue Skipped is out of sight: over every run in which the
    bastion stays disabled and the cluster is not deleted, nothing removes it. */
module HiddenBastion {
  import opened Api
  import opened Labels
  import opened CloudModel
  import opened CloudValidity
  import opened Removal
  import opened ClusterModel
  import opened ClusterFrames
  import opened ClusterRuns
  import opened BastionStages
  import opened BastionSkip
  import opened BastionRuns
  import Conditions
  import MachineFrames
  import MachineModel

  /** The resources that carry the bastion's tags. */
  datatype Resources = Resources(servers: set<Id>, addresses: set<Id>, groups: set<Id>)

  function Bastion(c: CloudState, b: Tags): Resources
  {
    Resources(Tagged(c, Servers, b), Tagged(c, Addresses, b), Tagged(c, Groups, b))
  }

  ghost predicate OutOfSight(w: World, id: Identity, there: Resources)
  {
    && Valid(w.cloud) && KnownAbsent(w.stored.status) && !w.stored.spec.bastionEnabled && !w.stored.deleting
    && Bastion(w.cloud, BastionTagsOf(w.stored.spec, id)) == there
  }

  lemma SameResources(c: CloudState, c': CloudState, b: Tags)
    requires c'.servers == c.servers && c'.addresses == c.addresses && c'.groups == c.groups
    ensures Bastion(c', b) == Bastion(c, b)
  {
    TaggedSame(c, c', Servers, b);
    TaggedSame(c, c', Addresses, b);
    TaggedSame(c, c', Groups, b);
  }

  /** No normal pass touches a server, an address or a group. */
  lemma PassLooksAway(w: World, id: Identity, e: Env)
    requires Valid(w.cloud) && KnownAbsent(w.stored.status) && !w.stored.spec.bastionEnabled && !w.stored.deleting
    ensures var w' := Reconcile(w, id, e);
            && KnownAbsent(w'.stored.status) && w'.stored.spec == w.stored.spec && !w'.stored.deleting
            && Valid(w'.cloud)
            && w'.cloud.servers == w.cloud.servers && w'.cloud.addresses == w.cloud.addresses
            && w'.cloud.groups == w.cloud.groups && w'.cloud.attached == w.cloud.attached
  {
    var spec, st, c := w.stored.spec, Unpaused(w), w.cloud;
    MarkingOther(w.stored.status, Paused, false, Conditions.NotPaused);
    MarkingOther(w.stored.status, Paused, true, Conditions.IsPaused);
    NormalBastion(spec, st, c, id, e);
    var a := AtBastion(spec, st, c, id, e);
    SkippedAfter(spec, a.status, a.cloud, id, e);
    AfterSaysCloud(spec, a.status, a.cloud, id, e);
    hide Normal, Mark, AtBastion, BastionStage, CallBastion, Valid, KnownAbsent, CleansUp, RemoveBastion;
  }

  lemma AfterSaysCloud(spec: Spec, st: Status, c: CloudState, id: Identity, e: Env)
    ensures BastionStage(spec, st, c, id, e).cloud == CallBastion(spec, st, c, id, e).cloud
  {
    AbsentCase(spec, st, c, id, e);
    AfterSays(st, CallBastion(spec, st, c, id, e), e);
    hide CallBastion, AfterBastion, KnownAbsent, CleansUp, RemoveBastion;
  }

  /** The machine pass is not about a bastion server. */
  predicate NotBastion(m: MachineModel.StackitMachine, c: CloudState, mid: MachineModel.Identity, b: Tags)
  {
    && !Matches(mid.tags, b) && !Matches(mid.nodeTags, b) && m.instanceID !in Tagged(c, Servers, b)
    && Tagged(c, Servers, mid.tags) !! Tagged(c, Servers, b)
  }

  lemma MachineDeleteLooksAway(m: MachineModel.StackitMachine, c: CloudState, mid: MachineModel.Identity,
                               e: MachineModel.Env, b: Tags)
    requires NotBastion(m, c, mid, b) && ValidStore(c.servers)
    ensures Tagged(MachineModel.Delete(m, c, mid, e).cloud, Servers, b) == Tagged(c, Servers, b)
  {
    var server := ResolveID(c, Servers, m.instanceID, mid.tags, e.find);
    if server.Ok? && server.value != 0 {
      assert server.value !in Tagged(c, Servers, b) by {
        if mid.tags != map[] { FoundIsTheOne(c, Servers, mid.tags, e.find); }
      }
      DeleteIfThereItems(c, Servers, server.value, e.delete);
      TaggedAfter(c, DeleteIfThere(c, Servers, server.value, e.delete).cloud, Servers, server.value, b);
    }
    hide CloudModel.Delete, ResolveID, Tagged, Matches;
  }

  lemma MachineLooksAway(w: MachineModel.World, mid: MachineModel.Identity, e: MachineModel.Env, b: Tags)
    requires Valid(w.cloud) && NotBastion(w.stored, w.cloud, mid, b)
    ensures var c' := MachineModel.Reconcile(w, mid, e).cloud; Valid(c') && Bastion(c', b) == Bastion(w.cloud, b)
  {
    var m := MachineModel.Mark(w.stored, MachineModel.Paused, false, Conditions.NotPaused);
    MachinePass(w, mid, e, b);
    MachineNormal(m.(finalizer := true), w.cloud, mid, e, b);
    MachineDeleteLooksAway(m, w.cloud, mid, e, b);
    MachineFrames.DeletePassFrame(m, w.cloud, mid, e);
    TaggedSame(w.cloud, MachineModel.Delete(m, w.cloud, mid, e).cloud, Groups, b);
    MachineFrames.MachinePassFrame(w, mid, e);
    TaggedSame(w.cloud, MachineModel.Reconcile(w, mid, e).cloud, Addresses, b);
    hide MachineModel.Normal, MachineModel.Delete, Valid, Tagged, Matches;
  }

  /** Any pass whatsoever, updates that keep the bastion disabled, and nobody else
      deals with the bastion. */
  ghost predicate NobodyLooks(w: World, id: Identity, ev: Event)
  {
    match ev
    case Reconciled(_) => true
    case SpecUpdated(o) => o.spec.labels == w.stored.spec.labels && !o.spec.bastionEnabled
    case MachineReconciled(m, mid, e) => NotBastion(m, w.cloud, mid, BastionTagsOf(w.stored.spec, id))
    case Interference(c) =>
      Valid(c) && Bastion(c, BastionTagsOf(w.stored.spec, id)) == Bastion(w.cloud, BastionTagsOf(w.stored.spec, id))
    case DeletionRequested => false
  }

  lemma StepLooksAway(w: World, id: Identity, ev: Event, there: Resources)
    requires OutOfSight(w, id, there) && NobodyLooks(w, id, ev)
    ensures OutOfSight(Next(w, id, ev), id, there)
  {
    hide Reconcile, MachineModel.Reconcile, NotBastion, Valid, Bastion, BastionTagsOf, KnownAbsent;
    match ev
    case Reconciled(e) =>
      PassLooksAway(w, id, e);
      SameResources(w.cloud, Reconcile(w, id, e).cloud, BastionTagsOf(w.stored.spec, id));
    case SpecUpdated(o) => SpecLooksAway(w, id, o, there);
    case MachineReconciled(m, mid, e) =>
      MachineLooksAway(MachineModel.World(m, w.cloud, false), mid, e, BastionTagsOf(w.stored.spec, id));
    case Interference(_) =>
  }

  lemma SpecLooksAway(w: World, id: Identity, o: StackitCluster, there: Resources)
    requires OutOfSight(w, id, there) && o.spec.labels == w.stored.spec.labels && !o.spec.bastionEnabled
    ensures OutOfSight(Next(w, id, SpecUpdated(o)), id, there)
  {
    SameTags(w.stored.spec, o.spec, id);
    hide BastionTagsOf, Bastion, Valid;
  }

  /** However many passes run and whatever they meet, the bastion that Skipped denies
      is there at the end exactly as it was at the start. */
  lemma {:induction false} HiddenBastionStays(w: World, id: Identity, events: seq<Event>)
    requires Valid(w.cloud) && KnownAbsent(w.stored.status) && !w.stored.spec.bastionEnabled && !w.stored.deleting
    requires Run(w, id, events, (v, ev) => NobodyLooks(v, id, ev))
    ensures var now := After(w, id, events);
            && KnownAbsent(now.stored.status)
            && Bastion(now.cloud, BastionTagsOf(now.stored.spec, id)) ==
               Bastion(w.cloud, BastionTagsOf(w.stored.spec, id))
  {
    var there := Bastion(w.cloud, BastionTagsOf(w.stored.spec, id));
    hide NobodyLooks, Next, Bastion, KnownAbsent, Valid, BastionTagsOf;
    var inv := (v: World) => OutOfSight(v, id, there);
    var ok := (v, ev) => NobodyLooks(v, id, ev);
    forall v: World, ev: Event | inv(v) && ok(v, ev) ensures inv(Next(v, id, ev)) { StepLooksAway(v, id, ev, there); }
    Invariance(w, id, events, inv, ok);
  }
}
