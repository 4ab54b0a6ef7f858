/** What a cluster pass waits for, when it makes its bastion anew and what it says on
    the way, told from the fields it observes. */
module ClusterGates {
  import opened Api
  import opened CloudModel
  import opened ClusterModel
  import opened ClusterFrames
  import opened ClusterRuns
  import opened BastionStages
  import opened ClusterTeardown
  import BastionRelabel
  import BastionUpkeep
  import ClusterPool
  import Conditions
  import MachineModel
  import TidyCloud
  import Zones

  predicate Says(st: Status, t: ConditionType, status: bool, reason: Conditions.Reason)
  {
    t in st.conditions && st.conditions[t] == Conditions.Condition(status, reason)
  }

  /** A paused pass, and one without its owners, leaves the cloud and all of the object
      but the Paused condition alone, deletion or not. */
  lemma PausedOnlySaysSo(w: World, id: Identity, e: Env)
    requires e.paused || !e.ownersFound
    ensures var w' := Reconcile(w, id, e);
            && w'.cloud == w.cloud && w'.abandoned == w.abandoned
            && w'.stored == w.stored.(status := w.stored.status.(conditions := w'.stored.status.conditions))
            && Conditions.SameBut(w.stored.status.conditions, w'.stored.status.conditions, {Paused})
            && (e.ownersFound && e.finalPatchLands && !Gone(w.stored) ==>
                  Says(w'.stored.status, Paused, true, Conditions.IsPaused))
  {
  }

  // --------------------------------------------------------- waiting for Machines

  /** The finalizer goes only in a deletion pass that listed the Machines and found none,
      a lost credentials Secret included. */
  lemma FinalizerWaitsForMachines(w: World, id: Identity, e: Env)
    requires w.stored.finalizer && !Reconcile(w, id, e).stored.finalizer
    ensures w.stored.deleting && e.ownersFound && !e.paused && e.finalPatchLands
    ensures e.machinesListed && e.machines == [] && e.client != BuildFailed
  {
    hide Normal, CleanUp;
  }

  /** A cluster is given up, with all it has in the cloud, exactly when its finalizer goes
      because the credentials Secret is gone. */
  lemma AbandonedIff(w: World, id: Identity, e: Env)
    requires !w.abandoned && w.stored.finalizer
    ensures var w' := Reconcile(w, id, e);
            && (w'.abandoned <==> !w'.stored.finalizer && e.client == SecretGone)
            && (w'.abandoned ==> w'.cloud == w.cloud)
  {
    hide Normal, CleanUp;
  }

  /** While a Machine is left, or they cannot be listed, a deletion pass touches neither
      cloud nor record nor finalizer. */
  lemma MachinesHoldTeardown(w: World, id: Identity, e: Env)
    requires w.stored.deleting && (!e.machinesListed || e.machines != [])
    ensures var w' := Reconcile(w, id, e);
            && w'.cloud == w.cloud && w'.abandoned == w.abandoned && w'.stored.finalizer == w.stored.finalizer
            && w'.stored.status == w.stored.status.(conditions := w'.stored.status.conditions)
            && Conditions.SameBut(w.stored.status.conditions, w'.stored.status.conditions, {Paused})
  {
  }

  /** Some event of the run is a deletion pass that saw no Machine. */
  ghost predicate SawNoMachine(w: World, id: Identity, events: seq<Event>)
  {
    exists i :: 0 <= i < |events| && After(w, id, events[..i]).stored.deleting && events[i].Reconciled? &&
                events[i].env.machinesListed && events[i].env.machines == []
  }

  /** Over every run, whatever fails, whoever interferes: if the finalizer is gone, then
      some deletion pass listed the Machines and found none. */
  lemma {:induction false} FinalizerOutlivesMachines(w: World, id: Identity, events: seq<Event>)
    requires w.stored.finalizer && !After(w, id, events).stored.finalizer
    ensures SawNoMachine(w, id, events)
    decreases |events|
  {
    var before, last := events[..|events| - 1], events[|events| - 1];
    var v := After(w, id, before);
    hide Reconcile, MachineModel.Reconcile;
    if v.stored.finalizer {
      LosesFinalizer(v, id, last);
      assert events[..|events| - 1] == before;
    } else {
      FinalizerOutlivesMachines(w, id, before);
      hide After;
      var i :| 0 <= i < |before| && After(w, id, before[..i]).stored.deleting && before[i].Reconciled? &&
               before[i].env.machinesListed && before[i].env.machines == [];
      assert before[..i] == events[..i] && before[i] == events[i];
    }
  }

  lemma LosesFinalizer(w: World, id: Identity, ev: Event)
    requires w.stored.finalizer && !Next(w, id, ev).stored.finalizer
    ensures w.stored.deleting && ev.Reconciled? && ev.env.machinesListed && ev.env.machines == []
  {
    if ev.Reconciled? { FinalizerWaitsForMachines(w, id, ev.env); }
    hide Reconcile, MachineModel.Reconcile;
  }

  // ------------------------------------------------------- making the bastion anew

  /** Anything of a bastion is recorded. */
  predicate Recorded(b: BastionStatus)
  {
    b.ids.server != 0 || b.ids.address != 0 || b.ids.group != 0 || b.ip != ""
  }

  /** The pass comes to a bastion that is wanted, valid and has its cloud-init. */
  ghost predicate ComesToBastion(w: World, id: Identity, e: Env)
  {
    ReachesBastion(w, id, e) && w.stored.spec.bastionEnabled && w.stored.spec.bastionValid && e.cloudInitFound
  }

  /** If something is recorded and the cloud-init is no longer the one it was made with,
      the pass makes nothing and does not end ready: the record is cleared with reason
      Recreating, or the removal failed and it is kept. */
  lemma {:induction false} ChangedCloudInitRecreates(w: World, id: Identity, e: Env)
    requires Valid(w.cloud) && ComesToBastion(w, id, e)
    requires Recorded(w.stored.status.bastion) && w.stored.status.bastion.hash != e.cloudInitHash
    ensures var w' := Reconcile(w, id, e);
            var a := AtBastion(w.stored.spec, Unpaused(w), w.cloud, id, e);
            var removed := RemoveBastion(w.stored.spec, w.stored.status, a.cloud, id, e, {NotFound});
            && w'.cloud == removed.cloud
            && TidyCloud.Reduced(w.cloud.(networks := w'.cloud.networks), w'.cloud)
            && (e.finalPatchLands ==>
                  var st := w'.stored.status;
                  var reason := if removed.result.Ok? then Conditions.Recreating else Conditions.BastionError;
                  && Fails(st, BastionReady, reason)
                  && st.bastion == if removed.result.Ok? then NoBastion else w.stored.status.bastion)
  {
    var spec, st := w.stored.spec, Unpaused(w);
    var a := AtBastion(spec, st, w.cloud, id, e);
    Reached(w, id, e);
    NormalByStages(spec, st, w.cloud, id, e);
    SameRecordRemoves(spec, a.status, w.stored.status, a.cloud, id, e);
    BastionUpkeep.RemoveBastionReduced(spec, a.status, a.cloud, id, e, {NotFound});
    RemoveBastionFrame(spec, a.status, a.cloud, id, e, {NotFound});
    StageRecreates(spec, a.status, a.cloud, id, e);
    hide Normal, AtBastion, BastionStage, RemoveBastion, KnownAbsent, Valid, Recorded;
  }

  lemma StageRecreates(spec: Spec, st: Status, c: CloudState, id: Identity, e: Env)
    requires spec.bastionEnabled && spec.bastionValid && e.cloudInitFound
    requires Recorded(st.bastion) && st.bastion.hash != e.cloudInitHash
    ensures var s := BastionStage(spec, st, c, id, e);
            var removed := RemoveBastion(spec, st, c, id, e, {NotFound});
            var reason := if removed.result.Ok? then Conditions.Recreating else Conditions.BastionError;
            && !s.go && s.cloud == removed.cloud && Fails(s.status, BastionReady, reason)
            && s.status.bastion == if removed.result.Ok? then NoBastion else st.bastion
  {
    hide RemoveBastion, EnsureBastion, KnownAbsent;
  }

  lemma StageEnsures(spec: Spec, st: Status, c: CloudState, id: Identity, e: Env)
    requires spec.bastionEnabled && spec.bastionValid && e.cloudInitFound
    requires !Recorded(st.bastion) || st.bastion.hash == e.cloudInitHash
    ensures var s := BastionStage(spec, st, c, id, e);
            var made := EnsureBastion(c, BastionTagsOf(spec, id), NetworkID(spec, st), e.ensureBastion);
            && s.cloud == made.cloud
            && if made.result.Err? then
                 !s.go && s.status.bastion == st.bastion && Fails(s.status, BastionReady, Conditions.BastionError)
               else MadeIsTold(s, made.result.value, e)
  {
    var made := EnsureBastion(c, BastionTagsOf(spec, id), NetworkID(spec, st), e.ensureBastion);
    if made.result.Ok? { MadeTells(st, made.cloud, made.result.value, e); }
    RejectionTells(st, made.cloud, Conditions.BastionError, e);
    hide EnsureBastion, BastionTagsOf, NetworkID, AfterBastion, MadeIsTold, Fails;
  }

  /** The bastion is recorded with the cloud-init it was made with, and the stage goes on
      once it is up and has an address. */
  predicate MadeIsTold(s: Stage, ids: BastionIDs, e: Env)
  {
    && s.status.bastion == BastionStatus(ids, e.bastionIP, e.cloudInitHash)
    && (s.go <==> e.bastionUp && e.bastionIP != "")
    && if !e.bastionUp then Fails(s.status, BastionReady, Conditions.ServerNotUp)
       else if e.bastionIP == "" then Fails(s.status, BastionReady, Conditions.Provisioning)
       else Says(s.status, BastionReady, true, Conditions.Available)
  }

  lemma MadeTells(st: Status, c: CloudState, ids: BastionIDs, e: Env)
    ensures var s := AfterBastion(st, BastionIs(c, ids), e); s.cloud == c && MadeIsTold(s, ids, e)
  {
  }

  lemma RejectionTells(st: Status, c: CloudState, reason: Conditions.Reason, e: Env)
    ensures var s := AfterBastion(st, BastionRejected(c, reason), e);
            && !s.go && s.cloud == c && s.status.bastion == st.bastion && Fails(s.status, BastionReady, reason)
            && Conditions.SameBut(st.conditions, s.status.conditions, {BastionReady, Ready})
  {
  }

  lemma SameRecordRemoves(spec: Spec, st: Status, st': Status, c: CloudState, id: Identity, e: Env)
    requires st'.bastion == st.bastion
    ensures RemoveBastion(spec, st', c, id, e, {NotFound}) == RemoveBastion(spec, st, c, id, e, {NotFound})
  {
    hide DeleteNodeSSH, DeleteBastion;
  }

  /** Otherwise the pass takes nothing away, and what it records bears the cloud-init it
      saw. */
  lemma {:induction false} SameCloudInitKeeps(w: World, id: Identity, e: Env)
    requires Valid(w.cloud) && ComesToBastion(w, id, e)
    requires !Recorded(w.stored.status.bastion) || w.stored.status.bastion.hash == e.cloudInitHash
    ensures var w' := Reconcile(w, id, e);
            && BastionRelabel.Kept(w.cloud.servers, w'.cloud.servers)
            && BastionRelabel.Kept(w.cloud.addresses, w'.cloud.addresses)
            && BastionRelabel.Kept(w.cloud.groups, w'.cloud.groups)
            && (w'.stored.status.bastion == w.stored.status.bastion ||
                w'.stored.status.bastion.hash == e.cloudInitHash)
  {
    var spec := w.stored.spec;
    var a := AtBastion(spec, Unpaused(w), w.cloud, id, e);
    Reached(w, id, e);
    BastionRelabel.EnsureKeepsAll(a.cloud, BastionTagsOf(spec, id), NetworkID(spec, a.status), e.ensureBastion);
    StageEnsures(spec, a.status, a.cloud, id, e);
    hide Reconcile, AtBastion, BastionStage, KnownAbsent, Valid, EnsureBastion, BastionTagsOf, NetworkID, Recorded;
    hide BastionRelabel.Kept, Says;
  }

  /** Until the bastion's turn the record stays. */
  lemma RecordWaits(spec: Spec, st: Status, c: CloudState, id: Identity, e: Env)
    ensures AtBastion(spec, st, c, id, e).status.bastion == st.bastion
  {
    hide CredentialStage, CallNetwork, CallBalancer, AfterNetwork, AfterBalancer, KnownAbsent;
    var s1 := AtNetwork(st, c, id, e);
    CredentialsKeep(st, c, id, e);
    AfterNetworkKeeps(spec, s1.status, CallNetwork(spec, s1.status, s1.cloud, id, e));
    var s2 := AtBalancer(spec, st, c, id, e);
    AfterBalancerKeeps(s2.status, CallBalancer(spec, s2.cloud, id, e), e.balancerIP);
  }

  lemma NormalKeepsHash(spec: Spec, st: Status, c: CloudState, id: Identity, e: Env)
    ensures var b := Normal(spec, st, c, id, e).status.bastion;
            Recorded(st.bastion) && Recorded(b) ==> b.hash == st.bastion.hash
  {
    NormalByStages(spec, st, c, id, e);
    RecordWaits(spec, st, c, id, e);
    hide Normal, AtBastion, RemoveBastion, EnsureBastion, KnownAbsent;
  }

  lemma DeletionKeepsHash(spec: Spec, st: Status, c: CloudState, id: Identity, e: Env)
    ensures var b := ClusterModel.Delete(spec, st, c, id, e).status.bastion;
            Recorded(st.bastion) && Recorded(b) ==> b.hash == st.bastion.hash
  {
    hide DropBalancer, DropBastion, DropNetwork, Recorded;
    var s1 := DropBalancer(st, c, e);
    DropsKeepRecord(spec, st, c, id, e);
    var s2 := DropBastion(spec, s1.status, s1.cloud, id, e);
    DropsKeepRecord(spec, s1.status, s1.cloud, id, e);
    DropsKeepRecord(spec, s2.status, s2.cloud, id, e);
    assert !Recorded(NoBastion) by { NoneRecorded(); }
  }

  lemma NoneRecorded()
    ensures !Recorded(NoBastion)
  {
  }

  lemma DropsKeepRecord(spec: Spec, st: Status, c: CloudState, id: Identity, e: Env)
    ensures DropBalancer(st, c, e).status.bastion == st.bastion
    ensures DropBastion(spec, st, c, id, e).status.bastion in {st.bastion, NoBastion}
    ensures DropNetwork(spec, st, c, id, e).status.bastion == st.bastion
  {
    hide ResolveBalancer, RemoveBastion, NetworkToDelete, CloudModel.Delete;
  }

  lemma StepKeepsHash(w: World, id: Identity, ev: Event)
    ensures var b, b' := w.stored.status.bastion, Next(w, id, ev).stored.status.bastion;
            Recorded(b) && Recorded(b') ==> b'.hash == b.hash
  {
    if ev.Reconciled? {
      NormalKeepsHash(w.stored.spec, Unpaused(w), w.cloud, id, ev.env);
      DeletionKeepsHash(w.stored.spec, Unpaused(w), w.cloud, id, ev.env);
    }
    hide Normal, ClusterModel.Delete, MachineModel.Reconcile;
  }

  /** Over every run, whatever happens in it: as long as a bastion is recorded, its
      cloud-init hash is the one it was recorded with. */
  lemma {:induction false} RecordedHashIsFixed(w: World, id: Identity, events: seq<Event>)
    requires forall i :: 0 <= i <= |events| ==> Recorded(After(w, id, events[..i]).stored.status.bastion)
    ensures After(w, id, events).stored.status.bastion.hash == w.stored.status.bastion.hash
    decreases |events|
  {
    hide Next, Recorded;
    if events != [] {
      var n := |events| - 1;
      var before := events[..n];
      forall i | 0 <= i <= |before| ensures Recorded(After(w, id, before[..i]).stored.status.bastion) {
        assert before[..i] == events[..i];
      }
      RecordedHashIsFixed(w, id, before);
      StepKeepsHash(After(w, id, before), id, events[n]);
      assert events[..|events|] == events && events[..n] == before;
    }
  }

  // ------------------------------------------------------------------ what it says

  /** A pass that gets to reconcileNormal with the finalizer persisted, and lands its patch. */
  predicate Proceeds(w: World, e: Env)
  {
    && !w.stored.deleting && e.ownersFound && !e.paused && e.finalPatchLands
    && (w.stored.finalizer || e.finalizerPatchLands)
  }

  predicate Fails(st: Status, t: ConditionType, reason: Conditions.Reason)
  {
    !st.ready && Says(st, t, false, reason) && Says(st, Ready, false, reason)
  }

  lemma WithoutClientOrZones(w: World, id: Identity, e: Env)
    requires Proceeds(w, e) && (e.client != Built || e.listZones != Works)
    ensures var w' := Reconcile(w, id, e);
            var st, st' := w.stored.status, w'.stored.status;
            && w'.cloud == w.cloud && st'.zones == [id.region + "-1", id.region + "-2", id.region + "-3"]
            && st'.network == st.network && st'.balancerID == st.balancerID && st'.bastion == st.bastion
            && if e.client != Built then Fails(st', CredentialsReady, Conditions.CredentialsInvalid)
               else Says(st', CredentialsReady, true, Conditions.Available) &&
                    Fails(st', Ready, Conditions.AvailabilityZonesError)
    ensures Conditions.SameBut(w.stored.status.conditions, Reconcile(w, id, e).stored.status.conditions,
                               {Paused, Ready, CredentialsReady})
  {
    hide CallNetwork, CallBalancer, CallBastion, AfterNetwork, AfterBalancer, AfterBastion;
  }

  /** The network to use is missing and cannot be made. */
  predicate NetworkFails(spec: Spec, st: Status, c: CloudState, e: Env)
  {
    if spec.network != 0 then !e.getNetwork.Works? || spec.network !in c.networks.items
    else if st.network != 0 && !e.getNetwork.Works? && e.getNetwork.error != NotFound then true
    else !(st.network != 0 && e.getNetwork.Works? && st.network in c.networks.items) &&
         !e.createNetwork.find.Works? && e.createNetwork.find.error != NotFound
  }

  lemma WithoutNetwork(w: World, id: Identity, e: Env)
    requires Proceeds(w, e) && e.client == Built && e.listZones == Works
    requires NetworkFails(w.stored.spec, w.stored.status, w.cloud, e)
    ensures var w' := Reconcile(w, id, e);
            var spec, st, st' := w.stored.spec, w.stored.status, w'.stored.status;
            && w'.cloud == w.cloud && st'.network == st.network && st'.balancerID == st.balancerID
            && st'.bastion == st.bastion
            && Fails(st', NetworkReady,
                     if spec.network != 0 then Conditions.NetworkNotFound
                     else if st.network != 0 && !e.getNetwork.Works? && e.getNetwork.error != NotFound
                     then Conditions.NetworkError else Conditions.NetworkCreateError)
    ensures Conditions.SameBut(w.stored.status.conditions, Reconcile(w, id, e).stored.status.conditions,
                               {Paused, Ready, CredentialsReady, NetworkReady})
  {
    var spec, st := w.stored.spec, Unpaused(w);
    CredentialStageFrame(st, w.cloud, id, e);
    var s1 := AtNetwork(st, w.cloud, id, e);
    CallFails(spec, s1.status, w.cloud, id, e);
    hide CallNetwork, NetworkFails, CallBalancer, CallBastion, AfterBalancer, AfterBastion, Zones.Publish;
  }

  lemma CallFails(spec: Spec, st: Status, c: CloudState, id: Identity, e: Env)
    requires NetworkFails(spec, st, c, e)
    ensures CallNetwork(spec, st, c, id, e) ==
            NetworkMissing(c, if spec.network != 0 then Conditions.NetworkNotFound
                              else if st.network != 0 && !e.getNetwork.Works? && e.getNetwork.error != NotFound
                              then Conditions.NetworkError else Conditions.NetworkCreateError)
  {
    RoleTags(spec, id);
    hide ClusterTagsOf;
  }

  /** The pass comes to its load balancer. */
  ghost predicate ComesToBalancer(w: World, id: Identity, e: Env)
  {
    Proceeds(w, e) && AtBalancer(w.stored.spec, Unpaused(w), w.cloud, id, e).go
  }

  /** Without a load balancer the endpoint must be given; with one, the Machines must be
      listed. Neither touches a load balancer or the bastion. */
  lemma WithoutEndpointOrMachines(w: World, id: Identity, e: Env)
    requires ComesToBalancer(w, id, e)
    requires if w.stored.spec.balancerEnabled then !e.machinesListed else w.stored.status.specEndpoint == ""
    ensures var w' := Reconcile(w, id, e);
            var st, st' := w.stored.status, w'.stored.status;
            && w'.cloud == w.cloud.(networks := w'.cloud.networks)
            && st'.balancerID == st.balancerID && st'.bastion == st.bastion
            && if !w.stored.spec.balancerEnabled then Fails(st', LoadBalancerReady, Conditions.EndpointMissing)
               else st'.ready == st.ready && Says(st', LoadBalancerReady, false, Conditions.MachineListError)
    ensures SameBastionSaid(w.stored.status, Reconcile(w, id, e).stored.status)
  {
    var spec, st := w.stored.spec, Unpaused(w);
    NetworkKeepsRest(spec, st, w.cloud, id, e);
    hide AtBalancer, CallBastion, AfterBastion, Seed, EnsureBalancer, CallTargets;
    assert Normal(spec, st, w.cloud, id, e) == AtBastion(spec, st, w.cloud, id, e) by {
      NormalByStages(spec, st, w.cloud, id, e);
    }
    hide Normal;
  }

  /** The same load balancer condition. */
  predicate SameBalancerSaid(st: Status, st': Status)
  {
    && (LoadBalancerReady in st'.conditions <==> LoadBalancerReady in st.conditions)
    && (LoadBalancerReady in st.conditions ==> st'.conditions[LoadBalancerReady] == st.conditions[LoadBalancerReady])
  }

  /** The same bastion condition. */
  predicate SameBastionSaid(st: Status, st': Status)
  {
    && (BastionReady in st'.conditions <==> BastionReady in st.conditions)
    && (BastionReady in st.conditions ==> st'.conditions[BastionReady] == st.conditions[BastionReady])
  }

  /** What the first two stages keep, when they go on. */
  lemma NetworkKeepsRest(spec: Spec, st: Status, c: CloudState, id: Identity, e: Env)
    requires AtBalancer(spec, st, c, id, e).go
    ensures var s := AtBalancer(spec, st, c, id, e);
            && s.cloud == c.(networks := s.cloud.networks) && s.status.ready == st.ready
            && s.status.specEndpoint == st.specEndpoint && s.status.endpoint == st.endpoint
            && s.status.balancerID == st.balancerID && s.status.bastion == st.bastion
            && SameBalancerSaid(st, s.status) && SameBastionSaid(st, s.status)
  {
    var s1 := AtNetwork(st, c, id, e);
    CallNetworkFrame(spec, s1.status, s1.cloud, id, e);
    hide CallNetwork, Zones.Publish, Zones.RegionZones;
  }

  /** What the status tells of the load balancer: its name as soon as it is found or
      made, its address as soon as it has one, even if the targets then fail. */
  predicate Told(st: Status, st': Status, made: Result<string>, targetsFailed: bool, ip: string)
  {
    if made.Err? then
      st'.balancerID == st.balancerID && Fails(st', LoadBalancerReady, Conditions.LoadBalancerError)
    else
      && st'.balancerID == made.value
      && if ip == "" then
           st'.specEndpoint == st.specEndpoint && Fails(st', LoadBalancerReady, Conditions.Provisioning)
         else
           && st'.specEndpoint == ip && st'.endpoint == ip
           && if targetsFailed then
                st'.ready == st.ready && Says(st', LoadBalancerReady, false, Conditions.LoadBalancerTargetError)
              else if Conditions.IsTrue(st.conditions, LoadBalancerReady) && st.endpoint == ip
              then LoadBalancerReady in st'.conditions &&
                   st'.conditions[LoadBalancerReady] == st.conditions[LoadBalancerReady]
              else Says(st', LoadBalancerReady, true, Conditions.Available)
  }

  lemma {:induction false} BalancerIsTold(w: World, id: Identity, e: Env)
    requires ComesToBalancer(w, id, e) && w.stored.spec.balancerEnabled && e.machinesListed
    ensures var a := AtBalancer(w.stored.spec, Unpaused(w), w.cloud, id, e);
            var made := EnsureBalancer(a.cloud, BalancerName(id), e.balancerLabels, 6443, Seed(id, e), e.balancer);
            var failed := made.result.Ok? && CallTargets(made.cloud, made.result.value, id, e).TargetsFailed?;
            Told(w.stored.status, Reconcile(w, id, e).stored.status, made.result, failed, e.balancerIP)
  {
    var spec, st := w.stored.spec, Unpaused(w);
    var a := AtBalancer(spec, st, w.cloud, id, e);
    NetworkKeepsRest(spec, st, w.cloud, id, e);
    NormalByStages(spec, st, w.cloud, id, e);
    var s3 := AtBastion(spec, st, w.cloud, id, e);
    BastionKeepsBalancer(s3.status, CallBastion(spec, s3.status, s3.cloud, id, e), e);
    BalancerStageTells(spec, a.status, a.cloud, id, e);
    hide Normal, AtBalancer, CallBastion, AfterBastion, BalancerStage, EnsureBalancer, CallTargets, Seed;
  }

  lemma BalancerStageTells(spec: Spec, st: Status, c: CloudState, id: Identity, e: Env)
    requires spec.balancerEnabled && e.machinesListed
    ensures var made := EnsureBalancer(c, BalancerName(id), e.balancerLabels, 6443, Seed(id, e), e.balancer);
            var failed := made.result.Ok? && CallTargets(made.cloud, made.result.value, id, e).TargetsFailed?;
            var s := BalancerStage(spec, st, c, id, e);
            && Told(st, s.status, made.result, failed, e.balancerIP)
            && (s.go <==> made.result.Ok? && e.balancerIP != "" && !failed)
  {
    var made := EnsureBalancer(c, BalancerName(id), e.balancerLabels, 6443, Seed(id, e), e.balancer);
    if made.result.Err? {
      FailureTells(st, made.cloud, made.result.error, e.balancerIP);
    } else {
      var name := made.result.value;
      ClusterPool.CallTargetsName(made.cloud, name, id, e);
      PendingTells(st, made.cloud, name);
      assert |e.balancerIP| == 0 <==> e.balancerIP == "";
      if e.balancerIP != "" { ServingTells(st, CallTargets(made.cloud, name, id, e).cloud, name, e.balancerIP); }
    }
    hide EnsureBalancer, CallTargets, Seed, AfterBalancer, Told, BalancerName;
  }

  lemma FailureTells(st: Status, c: CloudState, error: ErrorClass, ip: string)
    ensures var s := AfterBalancer(st, BalancerFailed(c), ip); !s.go && Told(st, s.status, Err(error), false, ip)
  {
  }

  lemma PendingTells(st: Status, c: CloudState, name: string)
    ensures var s := AfterBalancer(st, BalancerPending(c, name), "");
            && !s.go && Told(st, s.status, Ok(name), false, "") && Told(st, s.status, Ok(name), true, "")
  {
  }

  lemma ServingTells(st: Status, c: CloudState, name: string, ip: string)
    requires ip != ""
    ensures var s := AfterBalancer(st, BalancerServes(c, name), ip); s.go && Told(st, s.status, Ok(name), false, ip)
    ensures var s := AfterBalancer(st, TargetsFailed(c, name), ip); !s.go && Told(st, s.status, Ok(name), true, ip)
  {
  }

  /** The last stages leave the load balancer's part of the status alone. */
  lemma BastionKeepsBalancer(st: Status, call: BastionCall, e: Env)
    ensures var s := AfterBastion(st, call, e).status;
            && s.balancerID == st.balancerID && s.specEndpoint == st.specEndpoint && s.endpoint == st.endpoint
            && SameBalancerSaid(st, s)
            && SameBalancerSaid(s, Mark(s.(ready := true, provisioned := true), Ready, true, Conditions.Available))
  {
    hide KnownAbsent;
  }

  /** An enabled bastion needs a valid spec and its cloud-init; without, nothing of it
      is touched. */
  lemma {:induction false} WithoutBastionInputs(w: World, id: Identity, e: Env)
    requires Valid(w.cloud) && ReachesBastion(w, id, e) && e.finalPatchLands && w.stored.spec.bastionEnabled
    requires !w.stored.spec.bastionValid || !e.cloudInitFound
    ensures var w' := Reconcile(w, id, e);
            && w'.cloud == w.cloud.(networks := w'.cloud.networks, balancers := w'.cloud.balancers)
            && w'.stored.status.bastion == w.stored.status.bastion
            && Fails(w'.stored.status, BastionReady,
                     if !w.stored.spec.bastionValid then Conditions.InvalidBastionSpec
                     else Conditions.CloudInitRefError)
  {
    var spec, st := w.stored.spec, Unpaused(w);
    var a := AtBastion(spec, st, w.cloud, id, e);
    var reason := if !spec.bastionValid then Conditions.InvalidBastionSpec else Conditions.CloudInitRefError;
    Reached(w, id, e);
    NormalByStages(spec, st, w.cloud, id, e);
    RejectionTells(a.status, a.cloud, reason, e);
    assert CallBastion(spec, a.status, a.cloud, id, e) == BastionRejected(a.cloud, reason);
    hide Normal, AtBastion, CallBastion, AfterBastion, KnownAbsent, Valid, Fails;
  }

  /** What a clean-up step got through with is no longer recorded. */
  lemma DroppedIsForgotten(spec: Spec, st: Status, c: CloudState, id: Identity, e: Env)
    ensures DropBalancer(st, c, e).go ==> DropBalancer(st, c, e).status == st.(balancerID := "")
    ensures DropBastion(spec, st, c, id, e).go ==> !Recorded(DropBastion(spec, st, c, id, e).status.bastion)
    ensures DropNetwork(spec, st, c, id, e).go && spec.network == 0 ==>
            DropNetwork(spec, st, c, id, e).status.network == 0
  {
    assert |st.balancerID| == 0 ==> st == st.(balancerID := "");
    hide FindBalancer, Find, RemoveBastion, CloudModel.Delete;
  }

  /** A network that is still in use stops the clean-up, which says so. */
  lemma NetworkInUseStops(spec: Spec, st: Status, c: CloudState, id: Identity, e: Env)
    requires spec.network == 0 && st.network != 0 && e.deleteNetwork == Rejected(Conflict)
    ensures var s := DropNetwork(spec, st, c, id, e);
            !s.go && s.cloud == c && s.status.network == st.network &&
            Says(s.status, NetworkReady, false, Conditions.NetworkInUse)
  {
  }

  /** A deletion pass without a client keeps everything and says so, unless the Secret
      is gone for good. */
  lemma DeletionWaitsForClient(w: World, id: Identity, e: Env)
    requires w.stored.deleting && w.stored.finalizer && e.ownersFound && !e.paused && e.client == BuildFailed
    requires e.machinesListed && e.machines == []
    ensures var w' := Reconcile(w, id, e);
            && w'.cloud == w.cloud && w'.stored.finalizer && w'.abandoned == w.abandoned
            && (e.finalPatchLands ==> Says(w'.stored.status, CredentialsReady, false, Conditions.CredentialsInvalid))
  {
  }
}
