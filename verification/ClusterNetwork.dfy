/** The cluster's network over whole runs: whose networks are deleted, and whether
    the recorded network is the one there is. */
module ClusterNetwork {
  import opened Api
  import opened Labels
  import opened CloudModel
  import opened CloudFrames
  import opened ClusterModel
  import opened ClusterFrames
  import opened ClusterRuns
  import MachineFrames
  import MachineModel
  import Conditions

  // ----------------------------------------------------- networks through one pass

  /** A normal pass changes networks only in CallNetwork, and records what that found. */
  lemma NormalNetworks(spec: Spec, st: Status, c: CloudState, id: Identity, e: Env)
    ensures var n := Normal(spec, st, c, id, e);
            var call := CallNetwork(spec, st, c, id, e);
            if AtNetwork(st, c, id, e).go
            then n.cloud.networks == call.cloud.networks &&
                 n.status.network == if call.NetworkIs? then call.network else st.network
            else n.cloud.networks == c.networks && n.status.network == st.network
  {
    hide Normal, CredentialStage, CallNetwork, CallBalancer, CallBastion, AfterBalancer, AfterBastion;
    NormalByStages(spec, st, c, id, e);
    var s1 := AtNetwork(st, c, id, e);
    CredentialStageFrame(st, c, id, e);
    CallNetworkReadsNetwork(spec, st, s1.status, c, id, e);
    var s2 := AtBalancer(spec, st, c, id, e);
    CallBalancerFrame(spec, s2.cloud, id, e);
    AfterBalancerKeepsNetwork(s2.status, CallBalancer(spec, s2.cloud, id, e), e.balancerIP);
    AfterBalancerCloud(s2.status, CallBalancer(spec, s2.cloud, id, e), e.balancerIP);
    var s3 := AtBastion(spec, st, c, id, e);
    CallBastionFrame(spec, s3.status, s3.cloud, id, e);
    AfterBastionKeepsNetwork(s3.status, CallBastion(spec, s3.status, s3.cloud, id, e), e);
    AfterBastionCloud(s3.status, CallBastion(spec, s3.status, s3.cloud, id, e), e);
  }

  lemma AfterBalancerCloud(st: Status, call: BalancerCall, ip: string)
    ensures AfterBalancer(st, call, ip).cloud == call.cloud
  {
    hide Mark, NotReady, Published, Conditions.IsTrue;
  }

  lemma AfterBastionCloud(st: Status, call: BastionCall, e: Env)
    ensures AfterBastion(st, call, e).cloud == call.cloud
  {
    hide Mark, NotReady, KnownAbsent;
  }

  lemma DropNetworkEffect(spec: Spec, st: Status, c: CloudState, id: Identity, e: Env)
    ensures var s := DropNetwork(spec, st, c, id, e);
            var target := NetworkToDelete(spec, st, c, id, e);
            && (s.status.network == st.network || (s.go && s.status.network == 0))
            && (if target.Ok? && target.value != 0
                then s.cloud.networks == CloudModel.Delete(c, Networks, target.value, e.deleteNetwork).cloud.networks
                else s.cloud == c)
  {
    hide NetworkToDelete, CloudModel.Delete;
  }

  lemma NetworkToDeleteReads(spec: Spec, st: Status, st': Status, c: CloudState, c': CloudState, id: Identity, e: Env)
    requires st.network == st'.network && c.networks == c'.networks
    ensures NetworkToDelete(spec, st, c, id, e) == NetworkToDelete(spec, st', c', id, e)
    ensures forall n :: CloudModel.Delete(c, Networks, n, e.deleteNetwork).cloud.networks ==
                        CloudModel.Delete(c', Networks, n, e.deleteNetwork).cloud.networks
  {
  }

  lemma DropBalancerFrame(st: Status, c: CloudState, e: Env)
    ensures var s := DropBalancer(st, c, e);
            s.cloud == c.(balancers := s.cloud.balancers) && s.status == st.(balancerID := s.status.balancerID)
  {
    hide ResolveBalancer;
  }

  lemma DropBastionFrame(spec: Spec, st: Status, c: CloudState, id: Identity, e: Env)
    ensures var s := DropBastion(spec, st, c, id, e);
            BastionPartOnly(c, s.cloud) && s.status == st.(bastion := s.status.bastion)
  {
    hide RemoveBastion;
    RemoveBastionFrame(spec, st, c, id, e, {NotFound});
  }

  /** A deletion pass removes no network but the one NetworkToDelete names. */
  lemma DeletionNetworks(spec: Spec, st: Status, c: CloudState, id: Identity, e: Env)
    ensures var s := ClusterModel.Delete(spec, st, c, id, e);
            var target := NetworkToDelete(spec, st, c, id, e);
            && (s.status.network == st.network || s.status.network == 0)
            && (|| s.cloud.networks == c.networks
                || (target.Ok? && target.value != 0 &&
                    s.cloud.networks == CloudModel.Delete(c, Networks, target.value, e.deleteNetwork).cloud.networks))
  {
    hide DropBalancer, DropBastion, DropNetwork, CloudModel.Delete, NetworkToDelete;
    var s1 := DropBalancer(st, c, e);
    DropBalancerFrame(st, c, e);
    var s2 := DropBastion(spec, s1.status, s1.cloud, id, e);
    DropBastionFrame(spec, s1.status, s1.cloud, id, e);
    DropNetworkEffect(spec, s2.status, s2.cloud, id, e);
    NetworkToDeleteReads(spec, st, s2.status, c, s2.cloud, id, e);
  }

  // ------------------------------------------------------ whose networks are deleted

  /** With a managed network, whatever the recorded ID names is this cluster's. */
  ghost predicate OwnRecord(w: World, id: Identity)
  {
    var st, nets := w.stored.status, w.cloud.networks;
    && ValidStore(nets)
    && (w.stored.spec.network == 0 && st.network != 0 ==>
          st.network < nets.nextID &&
            (st.network in nets.items ==> BelongsTo(nets.items[st.network], id.name, id.namespace)))
  }

  /** Others may create and delete networks, but not relabel them or reuse an ID. */
  ghost predicate Polite(w: World, ev: Event)
  {
    ev.Interference? ==>
      var before, after := w.cloud.networks, ev.cloud.networks;
      ValidStore(after) && before.nextID <= after.nextID &&
      forall n :: n in after.items && n < before.nextID ==> n in before.items && after.items[n] == before.items[n]
  }

  lemma ClusterTagsBelong(spec: Spec, id: Identity, labels: Tags)
    ensures BelongsTo(ClusterTagsOf(spec, id), id.name, id.namespace)
    ensures Matches(labels, ClusterTagsOf(spec, id)) ==> BelongsTo(labels, id.name, id.namespace)
    ensures ClusterTagsOf(spec, id) != map[]
  {
    AllTagsBelong(id.name, id.namespace, "", "", spec.labels);
    assert ManagedBy in ClusterTagsOf(spec, id);
  }

  /** CallNetwork ends with a network of this cluster or with the one recorded. */
  lemma CallNetworkOwn(spec: Spec, st: Status, c: CloudState, id: Identity, e: Env)
    requires ValidStore(c.networks) && spec.network == 0
    ensures var call := CallNetwork(spec, st, c, id, e);
            var nets := call.cloud.networks;
            && ValidStore(nets) && c.networks.nextID <= nets.nextID
            && (forall n :: n in c.networks.items ==> n in nets.items && nets.items[n] == c.networks.items[n])
            && (forall n :: n in nets.items && n !in c.networks.items ==> n >= c.networks.nextID)
            && (call.NetworkIs? && call.network != st.network ==>
                  call.network in nets.items && BelongsTo(nets.items[call.network], id.name, id.namespace))
  {
    var tags := ClusterTagsOf(spec, id);
    ClusterTagsBelong(spec, id, tags);
    var found := Find(c, Networks, tags, e.createNetwork.find);
    if found.Ok? {
      assert found.value in Tagged(c, Networks, tags);
      ClusterTagsBelong(spec, id, c.networks.items[found.value]);
    }
    hide BelongsTo, ClusterTagsOf, Matches, Tagged;
  }

  lemma CallNetworkUnmanaged(spec: Spec, st: Status, c: CloudState, id: Identity, e: Env)
    requires spec.network != 0
    ensures CallNetwork(spec, st, c, id, e).cloud == c
  {
    hide FindOrCreate;
  }

  /** In one pass: the record stays this cluster's, a user's own network is never
      deleted, and every deleted network carries the cluster's tags. */
  lemma PassDeletesOwnOnly(w: World, id: Identity, e: Env)
    requires OwnRecord(w, id)
    ensures OwnRecord(Reconcile(w, id, e), id)
    ensures forall n :: n in w.cloud.networks.items && n !in Reconcile(w, id, e).cloud.networks.items ==>
              w.stored.spec.network == 0 && BelongsTo(w.cloud.networks.items[n], id.name, id.namespace)
  {
    hide Normal, ClusterModel.Delete, CallNetwork, BelongsTo;
    var spec, st := w.stored.spec, Mark(w.stored.status, Paused, false, Conditions.NotPaused);
    if w.stored.deleting {
      DeletionNetworks(spec, st, w.cloud, id, e);
      TargetIsOwn(w, st, id, e);
    } else {
      NormalNetworks(spec, st, w.cloud, id, e);
      if spec.network == 0 {
        CallNetworkOwn(spec, st, w.cloud, id, e);
      } else {
        CallNetworkUnmanaged(spec, st, w.cloud, id, e);
      }
    }
  }

  lemma TargetIsOwn(w: World, st: Status, id: Identity, e: Env)
    requires OwnRecord(w, id) && st.network == w.stored.status.network
    ensures var target := NetworkToDelete(w.stored.spec, st, w.cloud, id, e);
            target.Ok? && target.value != 0 ==>
              w.stored.spec.network == 0 &&
              (target.value in w.cloud.networks.items ==>
                 BelongsTo(w.cloud.networks.items[target.value], id.name, id.namespace))
  {
    var tags := ClusterTagsOf(w.stored.spec, id);
    var found := Find(w.cloud, Networks, tags, e.findNetwork);
    if found.Ok? {
      assert found.value in Tagged(w.cloud, Networks, tags);
      ClusterTagsBelong(w.stored.spec, id, w.cloud.networks.items[found.value]);
    }
    hide BelongsTo;
  }

  lemma StepKeepsOwnRecord(w: World, id: Identity, ev: Event)
    requires OwnRecord(w, id) && Polite(w, ev)
    ensures OwnRecord(Next(w, id, ev), id)
  {
    hide Reconcile, MachineModel.Reconcile, BelongsTo;
    match ev
    case Reconciled(e) => PassDeletesOwnOnly(w, id, e);
    case MachineReconciled(m, mid, e) => MachineFrames.MachinePassFrame(MachineModel.World(m, w.cloud, false), mid, e);
    case SpecUpdated(_) =>
    case Interference(_) =>
    case DeletionRequested =>
  }

  /** A new object records nothing. */
  lemma FreshIsOwnRecord(w: World, id: Identity)
    requires ValidStore(w.cloud.networks) && w.stored.status.network == 0
    ensures OwnRecord(w, id)
  {
  }

  /** Over every run (any failure, any lost patch, label updates included): no pass
      ever deletes a network the user brought, and every network a pass deletes
      carries the tags of this very cluster. */
  lemma {:induction false} EveryRunDeletesOwnOnly(w: World, id: Identity, events: seq<Event>, e: Env)
    requires OwnRecord(w, id) && Run(w, id, events, Polite)
    ensures var now := After(w, id, events);
            && OwnRecord(now, id)
            && now.stored.spec.network == w.stored.spec.network
            && (forall n :: n in now.cloud.networks.items && n !in Reconcile(now, id, e).cloud.networks.items ==>
                  now.stored.spec.network == 0 && BelongsTo(now.cloud.networks.items[n], id.name, id.namespace))
  {
    hide Reconcile, BelongsTo, OwnRecord;
    var inv := (v: World) => OwnRecord(v, id) && v.stored.spec.network == w.stored.spec.network;
    forall v: World, ev: Event | inv(v) && Polite(v, ev) ensures inv(Next(v, id, ev)) {
      StepKeepsOwnRecord(v, id, ev);
      StepKeepsNetworkChoice(v, id, ev);
    }
    Invariance(w, id, events, inv, Polite);
    PassDeletesOwnOnly(After(w, id, events), id, e);
  }

  lemma PassKeepsSpec(w: World, id: Identity, e: Env)
    ensures Reconcile(w, id, e).stored.spec == w.stored.spec
  {
    hide Normal, ClusterModel.Delete;
  }

  lemma StepKeepsNetworkChoice(w: World, id: Identity, ev: Event)
    ensures Next(w, id, ev).stored.spec.network == w.stored.spec.network
  {
    hide Normal, ClusterModel.Delete, MachineModel.Reconcile;
  }
}
