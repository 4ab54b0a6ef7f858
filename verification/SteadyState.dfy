/** Reconciling is idempotent: a pass that ends ready is a fixed point. Repeated with
    working calls and the same observations it changes neither object nor cloud. */
module SteadyState {
  import opened Api
  import opened Labels
  import opened CloudModel
  import opened CloudFrames
  import opened CloudValidity
  import opened Removal
  import opened ClusterModel
  import opened ClusterFrames
  import opened ClusterTeardown
  import BastionStages
  import ClusterNetwork
  import ClusterPool
  import Conditions
  import TargetPool
  import Zones

  /** The calls a settled cluster still makes, for what it has. */
  predicate ReadsWork(spec: Spec, e: Env)
  {
    && e.client.Built? && e.listZones.Works? && e.getNetwork.Works?
    && (spec.balancerEnabled ==>
          && e.machinesListed && e.balancer.list.Works? && !e.balancer.serviceOff && e.balancerLabels != map[]
          && e.setTargets.get.Works?)
    && (spec.bastionEnabled ==> BastionReads(e.ensureBastion))
  }

  predicate BastionReads(calls: EnsureBastionCalls)
  {
    && calls.group.find.Works? && calls.rules.Works? && calls.server.find.Works? && calls.attach.Works?
    && calls.address.find.Works? && (calls.unassigned ==> calls.assign.Works? && calls.read.Works?)
  }

  predicate Says(st: Status, t: ConditionType, reason: Conditions.Reason)
  {
    t in st.conditions && st.conditions[t] == Conditions.Condition(true, reason)
  }

  lemma SaidAgain(st: Status, t: ConditionType, reason: Conditions.Reason)
    requires Says(st, t, reason)
    ensures Mark(st, t, true, reason) == st
  {
    assert st.conditions[t := Conditions.Condition(true, reason)] == st.conditions;
  }

  // ------------------------------------------------------ what each stage settles

  predicate ZonesSettled(st: Status, id: Identity, e: Env)
  {
    Says(st, CredentialsReady, Conditions.Available) && st.zones == Zones.Publish(id.region, e.zones)
  }

  predicate NetworkSettled(spec: Spec, st: Status, c: CloudState)
  {
    && Says(st, NetworkReady, Conditions.Available) && st.managed == (spec.network == 0)
    && st.network != 0 && st.network in c.networks.items && (spec.network != 0 ==> st.network == spec.network)
  }

  ghost predicate BalancerSettled(spec: Spec, st: Status, c: CloudState, id: Identity, e: Env)
  {
    if !spec.balancerEnabled
    then Says(st, LoadBalancerReady, Conditions.Skipped) && |st.specEndpoint| > 0 && st.endpoint == st.specEndpoint
    else
      && MatchingBalancers(c, e.balancerLabels) == {st.balancerID} && |e.balancerIP| > 0
      && st.endpoint == e.balancerIP && st.specEndpoint == e.balancerIP
      && Conditions.IsTrue(st.conditions, LoadBalancerReady)
      && CallTargets(c, st.balancerID, id, e) == BalancerServes(c, st.balancerID)
  }

  ghost predicate BastionSettled(spec: Spec, st: Status, c: CloudState, id: Identity, e: Env)
  {
    if !spec.bastionEnabled then Says(st, BastionReady, Conditions.Skipped)
    else
      var ids, tags := st.bastion.ids, BastionTagsOf(spec, id);
      && spec.bastionValid && e.cloudInitFound && e.bastionUp && |e.bastionIP| > 0
      && Says(st, BastionReady, Conditions.Available) && st.bastion == BastionStatus(ids, e.bastionIP, e.cloudInitHash)
      && Tagged(c, Groups, tags) == {ids.group} && Tagged(c, Servers, tags) == {ids.server}
      && Tagged(c, Addresses, tags) == {ids.address} && (ids.server, ids.group) in c.attached
  }

  // -------------------------------------------------- a settled stage does nothing

  lemma ZonesAgain(spec: Spec, st: Status, c: CloudState, id: Identity, e: Env)
    requires ReadsWork(spec, e) && ZonesSettled(st, id, e)
    ensures CredentialStage(st, c, id, e) == Stage(st, c, true)
  {
    hide Zones.Publish, Zones.RegionZones, Mark;
    var st1 := st.(zones := Zones.RegionZones(id.region));
    SaidAgain(st1, CredentialsReady, Conditions.Available);
  }

  lemma NetworkAgain(spec: Spec, st: Status, c: CloudState, id: Identity, e: Env)
    requires ReadsWork(spec, e) && NetworkSettled(spec, st, c)
    ensures NetworkStage(spec, st, c, id, e) == Stage(st, c, true)
  {
    hide FindOrCreate, Mark;
    SaidAgain(st, NetworkReady, Conditions.Available);
    assert CallNetwork(spec, st, c, id, e) == NetworkIs(c, st.network);
    assert st.(network := st.network, managed := spec.network == 0) == st;
  }

  lemma BalancerAgain(spec: Spec, st: Status, c: CloudState, id: Identity, e: Env)
    requires ReadsWork(spec, e) && BalancerSettled(spec, st, c, id, e)
    ensures BalancerStage(spec, st, c, id, e) == Stage(st, c, true)
  {
    hide CallTargets, Seed, MatchingBalancers, Mark, Conditions.IsTrue;
    if !spec.balancerEnabled {
      SaidAgain(st, LoadBalancerReady, Conditions.Skipped);
      assert st.(endpoint := st.specEndpoint) == st;
    } else {
      assert AtMostOne(MatchingBalancers(c, e.balancerLabels));
      assert st.balancerID in MatchingBalancers(c, e.balancerLabels);
      assert FindBalancer(c, e.balancerLabels, e.balancer.list, e.balancer.serviceOff) == Ok(st.balancerID);
      assert CallBalancer(spec, c, id, e) == BalancerServes(c, st.balancerID);
      assert Published(st, st.balancerID, e.balancerIP) == st;
    }
  }

  lemma FoundAgain(c: CloudState, kind: Kind, tags: Tags, x: Id, calls: FindOrCreateCalls)
    requires tags != map[] && Tagged(c, kind, tags) == {x} && calls.find.Works?
    ensures FindOrCreate(c, kind, tags, calls) == Op(c, Ok(x))
  {
    assert AtMostOne(Tagged(c, kind, tags)) && x in Tagged(c, kind, tags);
    FoundIsTheOne(c, kind, tags, calls.find);
    hide Tagged;
  }

  lemma EnsuredAgain(c: CloudState, tags: Tags, network: Id, ids: BastionIDs, calls: EnsureBastionCalls)
    requires tags != map[] && network != 0 && BastionReads(calls)
    requires Tagged(c, Groups, tags) == {ids.group} && Tagged(c, Servers, tags) == {ids.server}
    requires Tagged(c, Addresses, tags) == {ids.address} && (ids.server, ids.group) in c.attached
    ensures EnsureBastion(c, tags, network, calls) == Op(c, Ok(ids))
  {
    FoundAgain(c, Groups, tags, ids.group, calls.group);
    FoundAgain(c, Servers, tags, ids.server, calls.server);
    FoundAgain(c, Addresses, tags, ids.address, calls.address);
    assert c.attached + {(ids.server, ids.group)} == c.attached;
    assert Attach(c, ids.server, ids.group, calls.attach) == Op(c, Ok(()));
    hide FindOrCreate, Attach, Tagged;
  }

  lemma BastionAgain(spec: Spec, st: Status, c: CloudState, id: Identity, e: Env)
    requires ReadsWork(spec, e) && BastionSettled(spec, st, c, id, e) && NetworkID(spec, st) != 0
    ensures BastionStage(spec, st, c, id, e) == Stage(st, c, true)
  {
    hide EnsureBastion, RemoveBastion, Mark, Tagged;
    if !spec.bastionEnabled {
      SaidAgain(st, BastionReady, Conditions.Skipped);
    } else {
      RoleTags(spec, id);
      EnsuredAgain(c, BastionTagsOf(spec, id), NetworkID(spec, st), st.bastion.ids, e.ensureBastion);
      SaidAgain(st, BastionReady, Conditions.Available);
      hide BastionTagsOf;
      assert CallBastion(spec, st, c, id, e) == BastionIs(c, st.bastion.ids);
    }
  }

  ghost predicate Settled(spec: Spec, st: Status, c: CloudState, id: Identity, e: Env)
  {
    && ZonesSettled(st, id, e) && NetworkSettled(spec, st, c) && BalancerSettled(spec, st, c, id, e)
    && BastionSettled(spec, st, c, id, e) && Says(st, Ready, Conditions.Available) && st.ready && st.provisioned
  }

  lemma SettledIsFixed(spec: Spec, st: Status, c: CloudState, id: Identity, e: Env)
    requires ReadsWork(spec, e) && Settled(spec, st, c, id, e)
    ensures Normal(spec, st, c, id, e) == Stage(st, c, true)
  {
    ZonesAgain(spec, st, c, id, e);
    NetworkAgain(spec, st, c, id, e);
    BalancerAgain(spec, st, c, id, e);
    assert NetworkID(spec, st) != 0;
    BastionAgain(spec, st, c, id, e);
    SaidAgain(st, Ready, Conditions.Available);
    hide CredentialStage, NetworkStage, BalancerStage, BastionStage, Mark, ReadsWork, Settled, NetworkID;
  }

  // ------------------------------------------------- a stage that goes on settles

  lemma ZonesSettle(st: Status, c: CloudState, id: Identity, e: Env)
    requires CredentialStage(st, c, id, e).go
    ensures ZonesSettled(CredentialStage(st, c, id, e).status, id, e)
  {
    hide Zones.Publish, Zones.RegionZones;
  }

  lemma NetworkSettles(spec: Spec, st: Status, c: CloudState, id: Identity, e: Env)
    requires ValidStore(c.networks) && NetworkStage(spec, st, c, id, e).go
    ensures var s := NetworkStage(spec, st, c, id, e); NetworkSettled(spec, s.status, s.cloud)
  {
    var tags := ClusterTagsOf(spec, id);
    assert tags != map[] by { RoleTags(spec, id); }
    FoundIsTheOne(c, Networks, tags, e.createNetwork.find);
    assert forall x :: x in Tagged(c, Networks, tags) ==> x in c.networks.items;
    hide Tagged, ClusterTagsOf, Only;
    assert CallNetwork(spec, st, c, id, e).NetworkIs?;
  }

  lemma UpdatedTargetsStay(c: CloudState, name: string, id: Identity, e: Env)
    requires e.setTargets.get.Works? && CallTargets(c, name, id, e).BalancerServes?
    ensures var c' := CallTargets(c, name, id, e).cloud; CallTargets(c', name, id, e) == BalancerServes(c', name)
  {
    hide SetTargets, Desired;
    if Desired(id, e) != [] {
      ClusterPool.SecondUpdateIsFree(c, name, APIServerPort, Desired(id, e), e.setTargets, e.setTargets);
    }
  }

  lemma EnsuredIsMatching(c: CloudState, name: string, seed: seq<TargetPool.Target>, labels: Tags,
                          calls: EnsureBalancerCalls)
    requires labels != map[] && calls.list.Works? && !calls.serviceOff
    ensures var op := EnsureBalancer(c, name, labels, APIServerPort, seed, calls);
            op.result.Ok? ==> MatchingBalancers(op.cloud, labels) == {op.result.value}
  {
    var op := EnsureBalancer(c, name, labels, APIServerPort, seed, calls);
    var matching := MatchingBalancers(c, labels);
    if op.result.Ok? && matching != {} {
      assert AtMostOne(matching);
      assert op.result.value in matching && forall x :: x in matching ==> x == op.result.value;
    }
  }

  lemma TargetsKeepMatching(c: CloudState, name: string, id: Identity, e: Env)
    ensures MatchingBalancers(CallTargets(c, name, id, e).cloud, e.balancerLabels) ==
            MatchingBalancers(c, e.balancerLabels)
  {
    hide Desired, GoodInput;
  }

  lemma BalancerSettles(spec: Spec, st: Status, c: CloudState, id: Identity, e: Env)
    requires ReadsWork(spec, e) && BalancerStage(spec, st, c, id, e).go
    ensures var s := BalancerStage(spec, st, c, id, e); BalancerSettled(spec, s.status, s.cloud, id, e)
  {
    hide EnsureBalancer, CallTargets, Seed, MatchingBalancers;
    if spec.balancerEnabled {
      var made := EnsureBalancer(c, BalancerName(id), e.balancerLabels, APIServerPort, Seed(id, e), e.balancer);
      EnsuredIsMatching(c, BalancerName(id), Seed(id, e), e.balancerLabels, e.balancer);
      if made.result.Ok? {
        var name := made.result.value;
        ClusterPool.CallTargetsName(made.cloud, name, id, e);
        TargetsKeepMatching(made.cloud, name, id, e);
        if CallTargets(made.cloud, name, id, e).BalancerServes? { UpdatedTargetsStay(made.cloud, name, id, e); }
      }
    }
  }

  lemma EnsuredAttached(c: CloudState, tags: Tags, network: Id, calls: EnsureBastionCalls)
    requires tags != map[] && calls.attach.Works? && Truthful(calls.server.find)
    ensures var op := EnsureBastion(c, tags, network, calls);
            op.result.Ok? ==> (op.result.value.server, op.result.value.group) in op.cloud.attached
  {
    hide FindOrCreate, CreateServerIn, Tagged;
    var group := FindOrCreate(c, Groups, tags, calls.group);
    if group.result.Ok? {
      var server := CreateServerIn(group.cloud, tags, group.result.value, calls.server);
      CreateServerInUnique(group.cloud, tags, group.result.value, calls.server);
      if server.result.Ok? {
        InItems(server.cloud, tags, server.result.value);
        var attach := Attach(server.cloud, server.result.value, group.result.value, calls.attach);
        FindOrCreateFrame(attach.cloud, Addresses, tags, calls.address);
      }
    }
  }

  lemma InItems(c: CloudState, tags: Tags, x: Id)
    requires Tagged(c, Servers, tags) == {x}
    ensures x in c.servers.items
  {
    assert x in Tagged(c, Servers, tags);
  }

  lemma BastionSettles(spec: Spec, st: Status, c: CloudState, id: Identity, e: Env)
    requires ReadsWork(spec, e) && BastionStage(spec, st, c, id, e).go
    ensures var s := BastionStage(spec, st, c, id, e); BastionSettled(spec, s.status, s.cloud, id, e)
  {
    RoleTags(spec, id);
    hide EnsureBastion, RemoveBastion, Tagged, BastionTagsOf;
    if spec.bastionEnabled {
      EnsuredBastionIsTheOne(c, BastionTagsOf(spec, id), NetworkID(spec, st), e.ensureBastion);
      EnsuredAttached(c, BastionTagsOf(spec, id), NetworkID(spec, st), e.ensureBastion);
    }
  }

  // ------------------------------------------------ and later stages leave it alone

  lemma NetworkKeepsZones(spec: Spec, st: Status, c: CloudState, id: Identity, e: Env)
    requires NetworkStage(spec, st, c, id, e).go && ZonesSettled(st, id, e)
    ensures ZonesSettled(NetworkStage(spec, st, c, id, e).status, id, e)
  {
    hide CallNetwork, Zones.Publish;
  }

  lemma BalancerKeepsEarlier(spec: Spec, st: Status, c: CloudState, id: Identity, e: Env)
    requires BalancerStage(spec, st, c, id, e).go && ZonesSettled(st, id, e) && NetworkSettled(spec, st, c)
    ensures var s := BalancerStage(spec, st, c, id, e);
            ZonesSettled(s.status, id, e) && NetworkSettled(spec, s.status, s.cloud)
  {
    CallBalancerFrame(spec, c, id, e);
    hide CallBalancer, Zones.Publish, Conditions.IsTrue;
  }

  lemma BalancerIgnores(spec: Spec, st: Status, st': Status, c: CloudState, c': CloudState, id: Identity, e: Env)
    requires BalancerSettled(spec, st, c, id, e) && c'.balancers == c.balancers
    requires st'.specEndpoint == st.specEndpoint && st'.endpoint == st.endpoint && st'.balancerID == st.balancerID
    requires Says(st, LoadBalancerReady, Conditions.Skipped) ==> Says(st', LoadBalancerReady, Conditions.Skipped)
    requires Conditions.IsTrue(st.conditions, LoadBalancerReady) ==>
             Conditions.IsTrue(st'.conditions, LoadBalancerReady)
    ensures BalancerSettled(spec, st', c', id, e)
  {
    hide Desired, GoodInput;
    assert MatchingBalancers(c', e.balancerLabels) == MatchingBalancers(c, e.balancerLabels);
  }

  /** The parts of the status that only earlier stages write. */
  predicate EarlierKept(st: Status, st': Status)
  {
    && st'.zones == st.zones && st'.network == st.network && st'.managed == st.managed
    && st'.specEndpoint == st.specEndpoint && st'.endpoint == st.endpoint && st'.balancerID == st.balancerID
    && (forall t :: t !in {BastionReady, Ready} ==>
          ((t in st'.conditions <==> t in st.conditions) &&
           (t in st.conditions ==> st'.conditions[t] == st.conditions[t])))
  }

  lemma BastionKeepsStatus(st: Status, call: BastionCall, e: Env)
    requires AfterBastion(st, call, e).go
    ensures EarlierKept(st, AfterBastion(st, call, e).status)
  {
    hide KnownAbsent;
  }

  lemma EarlierSettled(spec: Spec, st: Status, st': Status, c: CloudState, c': CloudState, id: Identity, e: Env)
    requires EarlierKept(st, st') && BastionPartOnly(c, c')
    requires ZonesSettled(st, id, e) && NetworkSettled(spec, st, c) && BalancerSettled(spec, st, c, id, e)
    ensures ZonesSettled(st', id, e) && NetworkSettled(spec, st', c') && BalancerSettled(spec, st', c', id, e)
  {
    hide BalancerSettled, Zones.Publish;
    BalancerIgnores(spec, st, st', c, c', id, e);
  }

  lemma ReadyKeepsBastion(spec: Spec, st: Status, c: CloudState, id: Identity, e: Env)
    requires BastionSettled(spec, st, c, id, e)
    ensures var st' := Mark(st.(ready := true, provisioned := true), Ready, true, Conditions.Available);
            BastionSettled(spec, st', c, id, e) && EarlierKept(st, st')
  {
    hide Tagged, BastionTagsOf;
  }

  lemma EndsSettled(spec: Spec, st: Status, c: CloudState, id: Identity, e: Env)
    requires ReadsWork(spec, e) && ValidStore(c.networks) && Normal(spec, st, c, id, e).go
    ensures var s := Normal(spec, st, c, id, e); Settled(spec, s.status, s.cloud, id, e)
  {
    hide CredentialStage, CallNetwork, CallBalancer, CallBastion, AfterNetwork, AfterBalancer, AfterBastion;
    hide ReadsWork, ZonesSettled, NetworkSettled, BalancerSettled, BastionSettled, EarlierKept;
    var s1 := CredentialStage(st, c, id, e);
    ZonesSettle(st, c, id, e);
    CredentialStageFrame(st, c, id, e);
    var s2 := NetworkStage(spec, s1.status, s1.cloud, id, e);
    NetworkSettles(spec, s1.status, s1.cloud, id, e);
    NetworkKeepsZones(spec, s1.status, s1.cloud, id, e);
    var s3 := BalancerStage(spec, s2.status, s2.cloud, id, e);
    BalancerSettles(spec, s2.status, s2.cloud, id, e);
    BalancerKeepsEarlier(spec, s2.status, s2.cloud, id, e);
    var s4 := BastionStage(spec, s3.status, s3.cloud, id, e);
    BastionSettles(spec, s3.status, s3.cloud, id, e);
    CallBastionFrame(spec, s3.status, s3.cloud, id, e);
    ClusterNetwork.AfterBastionCloud(s3.status, CallBastion(spec, s3.status, s3.cloud, id, e), e);
    BastionKeepsStatus(s3.status, CallBastion(spec, s3.status, s3.cloud, id, e), e);
    EarlierSettled(spec, s3.status, s4.status, s3.cloud, s4.cloud, id, e);
    ReadyKeepsBastion(spec, s4.status, s4.cloud, id, e);
    var s := Normal(spec, st, c, id, e);
    EarlierSettled(spec, s4.status, s.status, s4.cloud, s.cloud, id, e);
  }

  // --------------------------------------------------------------- the fixed point

  /** A pass of a live cluster that ends ready and lands its patch, run again with
      the same observations and working calls, changes nothing at all. */
  lemma {:induction false} ReadyIsFixedPoint(w: World, id: Identity, e: Env)
    requires ValidStore(w.cloud.networks) && ReadsWork(w.stored.spec, e) && e.ownersFound && !e.paused
    requires !w.stored.deleting && e.finalizerPatchLands && e.finalPatchLands
    requires Normal(w.stored.spec, BastionStages.Unpaused(w), w.cloud, id, e).go
    ensures var once := Reconcile(w, id, e);
            once.stored.status.ready && Reconcile(once, id, e) == once
  {
    hide Normal, Settled, ReadsWork;
    var spec, st := w.stored.spec, BastionStages.Unpaused(w);
    var s := Normal(spec, st, w.cloud, id, e);
    EndsSettled(spec, st, w.cloud, id, e);
    StaysUnpaused(spec, st, w.cloud, id, e);
    SettledIsFixed(spec, s.status, s.cloud, id, e);
    assert s.status.ready by { SettledReady(spec, s.status, s.cloud, id, e); }
  }

  lemma SettledReady(spec: Spec, st: Status, c: CloudState, id: Identity, e: Env)
    requires Settled(spec, st, c, id, e)
    ensures st.ready
  {
  }

  /** No stage touches the Paused condition. */
  lemma StaysUnpaused(spec: Spec, st: Status, c: CloudState, id: Identity, e: Env)
    requires Mark(st, Paused, false, Conditions.NotPaused) == st
    ensures var st' := Normal(spec, st, c, id, e).status; Mark(st', Paused, false, Conditions.NotPaused) == st'
  {
    hide CredentialStage, CallNetwork, CallBalancer, CallBastion, AfterNetwork, AfterBalancer, AfterBastion;
    var s1 := CredentialStage(st, c, id, e);
    var s2 := NetworkStage(spec, s1.status, s1.cloud, id, e);
    var s3 := BalancerStage(spec, s2.status, s2.cloud, id, e);
    PausedKept(st, c, id, e);
    PausedKeptByNetwork(spec, s1.status, CallNetwork(spec, s1.status, s1.cloud, id, e));
    PausedKeptByBalancer(s2.status, CallBalancer(spec, s2.cloud, id, e), e.balancerIP);
    PausedKeptByBastion(s3.status, CallBastion(spec, s3.status, s3.cloud, id, e), e);
  }

  predicate NotPausedNow(st: Status)
  {
    Paused in st.conditions && st.conditions[Paused] == Conditions.Condition(false, Conditions.NotPaused)
  }

  lemma PausedKept(st: Status, c: CloudState, id: Identity, e: Env)
    requires NotPausedNow(st)
    ensures NotPausedNow(CredentialStage(st, c, id, e).status)
  {
    hide Zones.Publish, Zones.RegionZones;
  }

  lemma PausedKeptByNetwork(spec: Spec, st: Status, call: NetworkCall)
    requires NotPausedNow(st)
    ensures NotPausedNow(AfterNetwork(spec, st, call).status)
  {
  }

  lemma PausedKeptByBalancer(st: Status, call: BalancerCall, ip: string)
    requires NotPausedNow(st)
    ensures NotPausedNow(AfterBalancer(st, call, ip).status)
  {
    hide Conditions.IsTrue;
  }

  lemma PausedKeptByBastion(st: Status, call: BastionCall, e: Env)
    requires NotPausedNow(st)
    ensures NotPausedNow(AfterBastion(st, call, e).status)
  {
    hide KnownAbsent;
  }
}
