/** Convergence: passes whose calls all work bring a live cluster to ready, from
    whatever state earlier passes left, exactly when nothing stands in the way. */
module ClusterConverges {
  import opened Api
  import opened Labels
  import opened CloudModel
  import opened CloudFrames
  import opened CloudValidity
  import opened Removal
  import opened ClusterModel
  import opened ClusterFrames
  import opened ClusterRuns
  import opened ClusterTeardown
  import opened CleanTeardown
  import opened BastionMaking
  import opened BastionStages
  import opened BastionCover
  import opened BastionUpkeep
  import opened NetworkCover
  import opened BalancerCover
  import opened TeardownRuns
  import opened SteadyState
  import ClusterNetwork
  import Conditions
  import Ordering
  import TargetPool
  import TidyCloud
  import Zones

  // ------------------------------------------------------------- passes that work

  predicate BalancerCallsWork(e: Env)
  {
    && e.machinesListed && (forall m :: m in e.machines ==> |m.name| > 0)
    && e.balancer.list.Works? && !e.balancer.serviceOff && e.balancer.create.Works? && |e.balancerIP| > 0
    && e.setTargets.get.Works? && e.setTargets.update.Works?
  }

  predicate BastionCallsWork(e: Env)
  {
    var calls := e.ensureBastion;
    && e.cloudInitFound && e.bastionUp && |e.bastionIP| > 0 && BastionReads(calls)
    && calls.group.create.Works? && calls.server.create.Works? && calls.address.create.Works?
  }

  /** Every call a pass may need works, and what it makes comes up with an address. */
  ghost predicate CallsWork(spec: Spec, c: CloudState, id: Identity, e: Env)
  {
    && e.client.Built? && e.listZones.Works? && e.getNetwork.Works?
    && e.createNetwork.find.Works? && e.createNetwork.create.Works?
    && NodeSSHWorks(e.deleteNodeSSH, c) && BastionWorks(e.deleteBastion)
    && (spec.balancerEnabled ==> BalancerCallsWork(e)) && (spec.bastionEnabled ==> BastionCallsWork(e))
    && HonestEnsure(e.ensureBastion) && Labeling(ClusterTagsOf(spec, id), e.balancerLabels)
  }

  ghost predicate WorkingPass(w: World, id: Identity, e: Env)
  {
    && e.ownersFound && !e.paused && e.finalizerPatchLands && e.finalPatchLands
    && CallsWork(w.stored.spec, w.cloud, id, e)
  }

  // ------------------------------------------------------ what can stand in the way

  /** A network of the user's own exists. */
  predicate NetworkThere(spec: Spec, c: CloudState)
  {
    spec.network != 0 ==> spec.network in c.networks.items
  }

  /** The load balancer is found, or its name is free; without one the user gave the
      endpoint. */
  predicate EndpointFree(spec: Spec, st: Status, c: CloudState, id: Identity, e: Env)
  {
    if spec.balancerEnabled then MatchingBalancers(c, e.balancerLabels) != {} || BalancerName(id) !in c.balancers
    else |st.specEndpoint| > 0
  }

  predicate Recreates(spec: Spec, st: Status, e: Env)
  {
    spec.bastionEnabled && NeedsRecreate(st, e)
  }

  /** The bastion's spec is valid, and clean-up recognizes every server that uses a
      node-SSH group if the bastion has to go. */
  predicate BastionFree(spec: Spec, st: Status, c: CloudState, id: Identity, e: Env)
  {
    if spec.bastionEnabled then spec.bastionValid && (NeedsRecreate(st, e) ==> Detachable(c, NodeTagsOf(spec, id)))
    else KnownAbsent(st) || Detachable(c, NodeTagsOf(spec, id))
  }

  predicate Attainable(spec: Spec, st: Status, c: CloudState, id: Identity, e: Env)
  {
    NetworkThere(spec, c) && EndpointFree(spec, st, c, id, e) && BastionFree(spec, st, c, id, e)
  }

  /** Two passes that see the same cloud-init and write the same labels. */
  predicate SameInputs(e: Env, e': Env)
  {
    e'.cloudInitHash == e.cloudInitHash && e'.balancerLabels == e.balancerLabels
  }

  // ------------------------------------------------------------------ the network

  lemma NetworkGoesIff(spec: Spec, st: Status, c: CloudState, id: Identity, e: Env)
    requires e.getNetwork.Works? && e.createNetwork.find.Works? && e.createNetwork.create.Works?
    requires AtMostOne(OwnNetworks(spec, c, id))
    ensures NetworkStage(spec, st, c, id, e).go <==> NetworkThere(spec, c)
    ensures !NetworkThere(spec, c) ==> !NetworkStage(spec, st, c, id, e).status.ready
  {
    RoleTags(spec, id);
    FindOrCreateEffect(c, Networks, ClusterTagsOf(spec, id), e.createNetwork);
    hide FindOrCreate, Tagged, ClusterTagsOf;
  }

  // ------------------------------------------------------------- the load balancer

  lemma DesiredIsGood(id: Identity, e: Env)
    requires forall m :: m in e.machines ==> |m.name| > 0
    ensures Desired(id, e) != [] ==> GoodInput(Desired(id, e))
  {
    var ms := TargetPool.EligibleOf(e.machines, id.clusterName);
    EligibleAreListed(e.machines, id.clusterName);
    TargetPool.PoolMembers(ms);
    var owners := TargetPool.Owners(Ordering.Sort(ms, TargetPool.ByName));
    assert TargetPool.OwnersOf(ms, owners);
    hide TargetPool.Owners, TargetPool.IP, TargetPool.TargetName, TargetPool.EligibleOf;
    forall t | t in Desired(id, e) ensures |t.name| > 0 && |t.ip| > 0 {
      var i :| 0 <= i < |owners| && Desired(id, e)[i] == t;
      assert owners[i] in owners && TargetPool.IP(owners[i]) != "";
      TargetNamed(owners[i].name, e.sha);
    }
  }

  lemma EligibleAreListed(ms: seq<TargetPool.Machine>, cluster: string)
    ensures forall m :: m in TargetPool.EligibleOf(ms, cluster) ==> m in ms
  {
  }

  lemma TargetNamed(name: string, sha: TargetPool.Digest)
    requires |name| > 0
    ensures |TargetPool.TargetName(name, sha)| > 0
  {
    hide TargetPool.DotsToDashes, TargetPool.TrimDashes;
    assert TargetPool.HexDigest(sha(name));
  }

  lemma EnsureBalancerWorksIff(c: CloudState, name: string, labels: Tags, seed: seq<TargetPool.Target>,
                               calls: EnsureBalancerCalls)
    requires calls.list.Works? && !calls.serviceOff && calls.create.Works? && labels != map[]
    requires AtMostOne(MatchingBalancers(c, labels))
    ensures var op := EnsureBalancer(c, name, labels, APIServerPort, seed, calls);
            && (op.result.Ok? <==> MatchingBalancers(c, labels) != {} || name !in c.balancers)
            && (op.result.Ok? ==> op.result.value in op.cloud.balancers)
            && (op.result.Err? ==> op.cloud == c)
  {
    var matching := MatchingBalancers(c, labels);
    assert forall x :: x in matching ==> x in c.balancers;
    hide MatchingBalancers;
  }

  lemma TargetsWork(c: CloudState, name: string, id: Identity, e: Env)
    requires BalancerCallsWork(e) && name in c.balancers && |name| > 0
    ensures CallTargets(c, name, id, e).BalancerServes?
  {
    DesiredIsGood(id, e);
    hide Desired, GoodInput;
  }

  lemma BalancerGoesIff(spec: Spec, st: Status, c: CloudState, id: Identity, e: Env)
    requires spec.balancerEnabled ==> BalancerCallsWork(e)
    requires Labeling(ClusterTagsOf(spec, id), e.balancerLabels)
    requires BalancerSound(st, c, id, ClusterTagsOf(spec, id))
    ensures var s := BalancerStage(spec, st, c, id, e);
            && (s.go <==> EndpointFree(spec, st, c, id, e)) && (!s.go ==> !s.status.ready)
            && (EndpointFree(spec, s.status, s.cloud, id, e) <==> EndpointFree(spec, st, c, id, e))
  {
    if spec.balancerEnabled {
      LabelsNotEmpty(spec, id, e);
      CoherentSeesOwn(c, ClusterTagsOf(spec, id), e.balancerLabels);
      var made := EnsureBalancer(c, BalancerName(id), e.balancerLabels, APIServerPort, Seed(id, e), e.balancer);
      EnsuredBalancer(c, id, Seed(id, e), e.balancerLabels, e.balancer, ClusterTagsOf(spec, id));
      AtMostOneIn(MatchingBalancers(c, e.balancerLabels), BalancerName(id));
      EnsureBalancerWorksIff(c, BalancerName(id), e.balancerLabels, Seed(id, e), e.balancer);
      EnsuredIsMatching(c, BalancerName(id), Seed(id, e), e.balancerLabels, e.balancer);
      NamesApart(id);
      if made.result.Ok? {
        TargetsWork(made.cloud, BalancerName(id), id, e);
        TargetsKeepMatching(made.cloud, BalancerName(id), id, e);
      }
    }
    hide EnsureBalancer, CallTargets, Seed, MatchingBalancers, OwnBalancers, ClusterTagsOf, Labeling, Carries;
    hide BalancerName, Conditions.IsTrue, BalancerCallsWork;
    assert spec.balancerEnabled ==> e.machinesListed && |e.balancerIP| > 0 by { Listed(spec, e); }
  }

  lemma Listed(spec: Spec, e: Env)
    requires spec.balancerEnabled ==> BalancerCallsWork(e)
    ensures spec.balancerEnabled ==> e.machinesListed && |e.balancerIP| > 0
  {
  }

  lemma LabelsNotEmpty(spec: Spec, id: Identity, e: Env)
    requires Labeling(ClusterTagsOf(spec, id), e.balancerLabels)
    ensures e.balancerLabels != map[]
  {
    assert ManagedBy in ClusterTagsOf(spec, id);
    hide ClusterTagsOf;
  }

  lemma AtMostOneIn(s: set<string>, x: string)
    requires s <= {x}
    ensures AtMostOne(s)
  {
  }

  // ------------------------------------------------------------------- the bastion

  /** A server that clean-up does not recognize still blocks after it tried. */
  lemma NodeBlockKept(c: CloudState, tags: Tags, calls: DeleteNodeSSHCalls)
    requires Valid(c) && ManagedBy in tags && tags[ManagedBy] == Provider && NodeSSHWorks(calls, c)
    requires AtMostOne(Tagged(c, Groups, tags)) && !Detachable(c, tags)
    ensures var op := DeleteNodeSSH(c, tags, calls);
            op.result.Err? && op.result.error != NotFound && !Detachable(op.cloud, tags)
  {
    SelectorNotEmpty(tags);
    var selector := ClusterSelector(tags);
    var p :| p in c.attached && p.1 in Tagged(c, Groups, tags) && p.0 in c.servers.items &&
             !Matches(c.servers.items[p.0], selector);
    FoundIsTheOne(c, Groups, tags, calls.find);
    var d := DetachAll(c, calls.listing, selector, p.1, calls.detach);
    DetachAllFrame(c, calls.listing, selector, p.1, calls.detach);
    DetachAllWorks(c, calls.listing, selector, p.1, calls.detach);
    hide DetachAll, ClusterSelector, Matches;
    assert Find(c, Groups, tags, calls.find) == Ok(p.1);
    assert p in d.cloud.attached;
    assert DeleteNodeSSH(c, tags, calls) == Op(d.cloud, Err(Conflict));
    assert p.1 in Tagged(d.cloud, Groups, tags);
  }

  lemma RemovalBlockKept(spec: Spec, st: Status, c: CloudState, id: Identity, e: Env, tolerated: set<ErrorClass>)
    requires tolerated <= {NotFound} && Valid(c) && NodeSSHWorks(e.deleteNodeSSH, c)
    requires AtMostOne(Tagged(c, Groups, NodeTagsOf(spec, id))) && !Detachable(c, NodeTagsOf(spec, id))
    ensures var op := RemoveBastion(spec, st, c, id, e, tolerated);
            op.result.Err? && !Detachable(op.cloud, NodeTagsOf(spec, id))
  {
    NodeTagsManaged(spec, id);
    NodeBlockKept(c, NodeTagsOf(spec, id), e.deleteNodeSSH);
    hide DeleteNodeSSH, DeleteBastion, NodeTagsOf, BastionTagsOf, Detachable, Valid, NodeSSHWorks, Tagged;
  }

  /** In a state that a run can reach, the removal of the bastion gets through exactly
      when clean-up recognizes the servers; otherwise they block it again. */
  lemma RemovalGoesIff(spec: Spec, st: Status, c: CloudState, id: Identity, e: Env, tolerated: set<ErrorClass>)
    requires tolerated <= {NotFound} && NodeSSHWorks(e.deleteNodeSSH, c) && BastionWorks(e.deleteBastion)
    requires Held(spec, st.bastion.ids, c, id) && BastionCovered(c, BastionTagsOf(spec, id), st.bastion.ids)
    ensures var op := RemoveBastion(spec, st, c, id, e, tolerated);
            && (op.result.Ok? <==> Detachable(c, NodeTagsOf(spec, id)))
            && (op.result.Err? ==> !Detachable(op.cloud, NodeTagsOf(spec, id)))
  {
    HeldIsUnique(spec, st.bastion.ids, c, id);
    RecordIsNoNodeGroup(spec, st.bastion.ids, c, id);
    WholeUnblocksBastion(spec, st, c, id);
    RemoveBastionWorks(spec, st, c, id, e, tolerated);
    if !Detachable(c, NodeTagsOf(spec, id)) { RemovalBlockKept(spec, st, c, id, e, tolerated); }
    hide RemoveBastion, Held, BastionCovered, NodeTagsOf, BastionTagsOf, Detachable, Tagged, BastionUnblocked;
  }

  lemma HeldIsUnique(spec: Spec, ids: BastionIDs, c: CloudState, id: Identity)
    requires Held(spec, ids, c, id)
    ensures Valid(c) && TidyCloud.Unique(c, BastionTagsOf(spec, id), NodeTagsOf(spec, id))
  {
    hide Valid, Tagged, BastionTagsOf, NodeTagsOf;
  }

  /** With working calls EnsureBastion goes through. */
  lemma WorkingEnsure(spec: Spec, ids: BastionIDs, c: CloudState, id: Identity, network: Id, e: Env)
    requires Held(spec, ids, c, id) && network != 0 && BastionCallsWork(e)
    ensures HonestEnsure(e.ensureBastion) && Completes(c, BastionTagsOf(spec, id), network, e.ensureBastion)
  {
    HeldIsUnique(spec, ids, c, id);
    hide Held, Tagged, BastionTagsOf, NodeTagsOf, Valid;
  }

  /** The bastion stage goes on, or another will, exactly when nothing is in its way. */
  ghost predicate BastionDecided(spec: Spec, st: Status, c: CloudState, id: Identity, e: Env, s: Stage)
  {
    && (s.go <==> BastionFree(spec, st, c, id, e) && !Recreates(spec, st, e)) && (!s.go ==> !s.status.ready)
    && (BastionFree(spec, s.status, s.cloud, id, e) <==> BastionFree(spec, st, c, id, e))
    && (BastionFree(spec, st, c, id, e) ==> !Recreates(spec, s.status, e))
  }

  /** What the status says of each way it can end. */
  lemma AfterBastionSays(st: Status, call: BastionCall, e: Env)
    requires call.BastionRejected? ==> call.reason != Conditions.Skipped
    ensures var s := AfterBastion(st, call, e);
            && s.cloud == call.cloud && (!s.go ==> !s.status.ready)
            && (s.go <==> call.BastionAbsent? || (call.BastionIs? && e.bastionUp && |e.bastionIP| > 0))
            && (KnownAbsent(s.status) <==> call.BastionAbsent?)
            && (call.BastionRejected? ==> s.status.bastion == st.bastion)
            && (call.BastionRecreating? || call.BastionIs? ==> !NeedsRecreate(s.status, e))
  {
  }

  lemma BastionGoesAway(spec: Spec, st: Status, c: CloudState, id: Identity, e: Env)
    requires NodeSSHWorks(e.deleteNodeSSH, c) && BastionWorks(e.deleteBastion) && !spec.bastionEnabled
    requires Held(spec, st.bastion.ids, c, id) && BastionCovered(c, BastionTagsOf(spec, id), st.bastion.ids)
    ensures BastionDecided(spec, st, c, id, e, BastionStage(spec, st, c, id, e))
  {
    RemovalGoesIff(spec, st, c, id, e, {});
    hide RemoveBastion, Held, BastionCovered, NodeTagsOf, BastionTagsOf, Detachable, NodeSSHWorks, BastionWorks;
    hide KnownAbsent, NeedsRecreate;
    AfterBastionSays(st, CallBastion(spec, st, c, id, e), e);
    hide AfterBastion;
  }

  lemma BastionComesBack(spec: Spec, st: Status, c: CloudState, id: Identity, e: Env)
    requires NodeSSHWorks(e.deleteNodeSSH, c) && BastionWorks(e.deleteBastion) && Recreates(spec, st, e)
    requires Held(spec, st.bastion.ids, c, id) && BastionCovered(c, BastionTagsOf(spec, id), st.bastion.ids)
    requires e.cloudInitFound
    ensures BastionDecided(spec, st, c, id, e, BastionStage(spec, st, c, id, e))
  {
    RemovalGoesIff(spec, st, c, id, e, {NotFound});
    hide RemoveBastion, Held, BastionCovered, NodeTagsOf, BastionTagsOf, Detachable, NodeSSHWorks, BastionWorks;
    hide KnownAbsent;
    var call := CallBastion(spec, st, c, id, e);
    AfterBastionSays(st, call, e);
    hide AfterBastion;
  }

  lemma BastionComesUp(spec: Spec, st: Status, c: CloudState, id: Identity, e: Env)
    requires spec.bastionEnabled && !Recreates(spec, st, e) && BastionCallsWork(e) && NetworkID(spec, st) != 0
    requires Held(spec, st.bastion.ids, c, id)
    ensures BastionDecided(spec, st, c, id, e, BastionStage(spec, st, c, id, e))
  {
    RoleTags(spec, id);
    WorkingEnsure(spec, st.bastion.ids, c, id, NetworkID(spec, st), e);
    EnsureEffect(c, BastionTagsOf(spec, id), NetworkID(spec, st), e.ensureBastion);
    hide EnsureBastion, Held, NodeTagsOf, BastionTagsOf, Detachable, Completes, Tagged, BastionReads, NetworkID;
    hide GroupMade, ServerMade, AddressMade, HonestEnsure, KnownAbsent;
    AfterBastionSays(st, CallBastion(spec, st, c, id, e), e);
    hide AfterBastion;
  }

  lemma BastionGoesIff(spec: Spec, st: Status, c: CloudState, id: Identity, e: Env)
    requires NodeSSHWorks(e.deleteNodeSSH, c) && BastionWorks(e.deleteBastion) && NetworkID(spec, st) != 0
    requires spec.bastionEnabled ==> BastionCallsWork(e)
    requires Held(spec, st.bastion.ids, c, id) && BastionCovered(c, BastionTagsOf(spec, id), st.bastion.ids)
    ensures BastionDecided(spec, st, c, id, e, BastionStage(spec, st, c, id, e))
  {
    if !spec.bastionEnabled { BastionGoesAway(spec, st, c, id, e); }
    else if Recreates(spec, st, e) { BastionComesBack(spec, st, c, id, e); }
    else { BastionComesUp(spec, st, c, id, e); }
    hide BastionDecided, BastionStage, Held, BastionCovered, NodeSSHWorks;
  }

  // --------------------------------------------------------------- the whole pass

  /** What a reachable state offers a pass. */
  ghost predicate Sound(spec: Spec, st: Status, c: CloudState, id: Identity)
  {
    && Held(spec, st.bastion.ids, c, id) && BastionCovered(c, BastionTagsOf(spec, id), st.bastion.ids)
    && NetworkSound(spec, st, c, id) && BalancerSound(st, c, id, ClusterTagsOf(spec, id))
  }

  lemma EndpointKept(spec: Spec, st: Status, call: NetworkCall, bastion: BastionCall, e: Env)
    ensures AfterNetwork(spec, st, call).status.specEndpoint == st.specEndpoint
    ensures AfterBastion(st, bastion, e).status.specEndpoint == st.specEndpoint
  {
    hide KnownAbsent;
  }

  lemma CredentialsGo(st: Status, c: CloudState, id: Identity, e: Env)
    requires e.client.Built? && e.listZones.Works?
    ensures CredentialStage(st, c, id, e).go && CredentialStage(st, c, id, e).status.specEndpoint == st.specEndpoint
  {
    hide Zones.Publish, Zones.RegionZones;
  }

  lemma SameEndpoint(spec: Spec, st: Status, st': Status, c: CloudState, c': CloudState, id: Identity, e: Env)
    requires st'.specEndpoint == st.specEndpoint && c'.balancers == c.balancers
    ensures EndpointFree(spec, st', c', id, e) == EndpointFree(spec, st, c, id, e)
  {
  }

  lemma UpToBalancer(spec: Spec, st: Status, c: CloudState, id: Identity, e: Env)
    requires CallsWork(spec, c, id, e) && Sound(spec, st, c, id)
    ensures var s := AtBalancer(spec, st, c, id, e);
            && (s.go <==> NetworkThere(spec, c)) && (!s.go ==> !s.status.ready)
            && (NetworkThere(spec, s.cloud) <==> NetworkThere(spec, c))
            && (EndpointFree(spec, s.status, s.cloud, id, e) <==> EndpointFree(spec, st, c, id, e))
            && BalancerSound(s.status, s.cloud, id, ClusterTagsOf(spec, id))
            && (s.go ==> NetworkID(spec, s.status) != 0)
  {
    var s1 := AtNetwork(st, c, id, e);
    CredentialsGo(st, c, id, e);
    CredentialStageFrame(st, c, id, e);
    var call := CallNetwork(spec, s1.status, c, id, e);
    NetworkGoesIff(spec, s1.status, c, id, e);
    CallNetworkFrame(spec, s1.status, c, id, e);
    if spec.network != 0 { ClusterNetwork.CallNetworkUnmanaged(spec, s1.status, c, id, e); }
    EndpointKept(spec, s1.status, call, BastionAbsent(c), e);
    AfterNetworkKeeps(spec, s1.status, call);
    AfterNetworkKeepsBalancer(spec, s1.status, call);
    var s := AtBalancer(spec, st, c, id, e);
    SameEndpoint(spec, st, s.status, c, s.cloud, id, e);
    SameBalancers(st, s.status, c, s.cloud, id, ClusterTagsOf(spec, id));
    if s.go { NetworkSettles(spec, s1.status, c, id, e); }
    hide CredentialStage, CallNetwork, AfterNetwork, CallsWork, Held, BastionCovered, BalancerSound, EndpointFree;
    hide ClusterTagsOf, BastionTagsOf, NetworkCovered;
  }

  lemma UpToBastion(spec: Spec, st: Status, c: CloudState, id: Identity, e: Env)
    requires CallsWork(spec, c, id, e) && Sound(spec, st, c, id)
    ensures var s := AtBastion(spec, st, c, id, e);
            && (s.go <==> NetworkThere(spec, c) && EndpointFree(spec, st, c, id, e)) && (!s.go ==> !s.status.ready)
            && (NetworkThere(spec, s.cloud) <==> NetworkThere(spec, c))
            && (EndpointFree(spec, s.status, s.cloud, id, e) <==> EndpointFree(spec, st, c, id, e))
            && (s.go ==> NetworkID(spec, s.status) != 0)
  {
    var s2 := AtBalancer(spec, st, c, id, e);
    UpToBalancer(spec, st, c, id, e);
    if s2.go {
      BalancerGoesIff(spec, s2.status, s2.cloud, id, e);
      CallBalancerFrame(spec, s2.cloud, id, e);
      var call := CallBalancer(spec, s2.cloud, id, e);
      ClusterNetwork.AfterBalancerCloud(s2.status, call, e.balancerIP);
      AfterBalancerKeepsNetwork(s2.status, call, e.balancerIP);
    }
    hide AtBalancer, CallBalancer, AfterBalancer, CallsWork, Sound, BalancerSound, EndpointFree, ClusterTagsOf;
  }

  /** A pass goes through, or another will, exactly when nothing is in its way. */
  ghost predicate Decided(spec: Spec, st: Status, c: CloudState, id: Identity, e: Env, n: Stage)
  {
    && (n.status.ready <==> Attainable(spec, st, c, id, e) && !Recreates(spec, st, e))
    && (Attainable(spec, n.status, n.cloud, id, e) <==> Attainable(spec, st, c, id, e))
    && (Attainable(spec, st, c, id, e) ==> !Recreates(spec, n.status, e))
  }

  lemma SameBastionFree(spec: Spec, st: Status, st': Status, c: CloudState, c': CloudState, id: Identity, e: Env)
    requires SameBastion(st, st') && c' == c.(networks := c'.networks, balancers := c'.balancers)
    ensures BastionFree(spec, st', c', id, e) == BastionFree(spec, st, c, id, e)
    ensures Recreates(spec, st', e) == Recreates(spec, st, e)
  {
    SameRemoval(spec, c, c', id, st.bastion.ids, e);
    hide Detachable, KnownAbsent, NodeTagsOf, BastionTagsOf, Tagged, NodeSSHWorks, BastionUnblocked;
  }

  lemma SameCovered(spec: Spec, ids: BastionIDs, c: CloudState, c': CloudState, id: Identity)
    requires BastionCovered(c, BastionTagsOf(spec, id), ids)
    requires c'.servers == c.servers && c'.addresses == c.addresses && c'.groups == c.groups
    ensures BastionCovered(c', BastionTagsOf(spec, id), ids)
  {
    hide BastionTagsOf;
  }

  /** The bastion's turn, seen from the start of the pass. */
  lemma BastionsTurn(spec: Spec, st: Status, c: CloudState, id: Identity, e: Env)
    requires CallsWork(spec, c, id, e) && Sound(spec, st, c, id) && AtBastion(spec, st, c, id, e).go
    ensures var a := AtBastion(spec, st, c, id, e);
            BastionDecided(spec, a.status, a.cloud, id, e, BastionStage(spec, a.status, a.cloud, id, e))
  {
    var a := AtBastion(spec, st, c, id, e);
    HeldIsUnique(spec, st.bastion.ids, c, id);
    BeforeBastion(spec, st, c, id, e);
    UpToBastion(spec, st, c, id, e);
    SameHeld(spec, st.bastion.ids, c, a.cloud, id);
    SameCovered(spec, st.bastion.ids, c, a.cloud, id);
    SameRemoval(spec, c, a.cloud, id, st.bastion.ids, e);
    hide AtBastion, BastionStage, BastionDecided, Held, BastionCovered, NetworkSound, BalancerSound, NodeSSHWorks;
    hide Valid, Tagged, Detachable, BastionUnblocked, BastionTagsOf, NodeTagsOf, ClusterTagsOf, KnownAbsent;
    hide EndpointFree, NetworkID, Labeling;
    BastionGoesIff(spec, a.status, a.cloud, id, e);
  }

  /** The bastion's turn changes neither the network's nor the endpoint's. */
  lemma TurnsApart(spec: Spec, st: Status, c: CloudState, id: Identity, e: Env)
    ensures var b := BastionStage(spec, st, c, id, e);
            && NetworkThere(spec, b.cloud) == NetworkThere(spec, c)
            && EndpointFree(spec, b.status, b.cloud, id, e) == EndpointFree(spec, st, c, id, e)
  {
    var call := CallBastion(spec, st, c, id, e);
    CallBastionFrame(spec, st, c, id, e);
    ClusterNetwork.AfterBastionCloud(st, call, e);
    EndpointKept(spec, st, NetworkMissing(c, Conditions.NetworkError), call, e);
    SameEndpoint(spec, st, BastionStage(spec, st, c, id, e).status, c, call.cloud, id, e);
    hide CallBastion, AfterBastion, EndpointFree;
  }

  lemma ReadyReadsAlike(spec: Spec, st: Status, c: CloudState, id: Identity, e: Env)
    ensures var st' := Mark(st.(ready := true, provisioned := true), Ready, true, Conditions.Available);
            && Attainable(spec, st', c, id, e) == Attainable(spec, st, c, id, e)
            && Recreates(spec, st', e) == Recreates(spec, st, e)
  {
    var st' := Mark(st.(ready := true, provisioned := true), Ready, true, Conditions.Available);
    ReadyAtLast(st);
    SameBastionFree(spec, st, st', c, c, id, e);
    SameEndpoint(spec, st, st', c, c, id, e);
    hide BastionFree, EndpointFree, Recreates, KnownAbsent;
  }

  lemma NormalDecides(spec: Spec, st: Status, c: CloudState, id: Identity, e: Env)
    requires CallsWork(spec, c, id, e) && Sound(spec, st, c, id)
    ensures Decided(spec, st, c, id, e, Normal(spec, st, c, id, e))
  {
    var a := AtBastion(spec, st, c, id, e);
    NormalByStages(spec, st, c, id, e);
    UpToBastion(spec, st, c, id, e);
    if a.go {
      HeldIsUnique(spec, st.bastion.ids, c, id);
      BeforeBastion(spec, st, c, id, e);
      SameBastionFree(spec, st, a.status, c, a.cloud, id, e);
      BastionsTurn(spec, st, c, id, e);
      TurnsApart(spec, a.status, a.cloud, id, e);
      var b := BastionStage(spec, a.status, a.cloud, id, e);
      ReadyReadsAlike(spec, b.status, b.cloud, id, e);
    }
    hide Normal, AtBastion, BastionStage, CallsWork, Sound, Valid, BastionFree, EndpointFree, Recreates, NetworkThere;
    hide KnownAbsent, NetworkID, TidyCloud.Unique, SameBastion;
  }

  // ------------------------------------------------------------------------ worlds

  ghost predicate AttainableIn(w: World, id: Identity, e: Env)
  {
    Attainable(w.stored.spec, w.stored.status, w.cloud, id, e)
  }

  lemma WholeIsSound(w: World, id: Identity)
    requires Whole(w, id)
    ensures Sound(w.stored.spec, Unpaused(w), w.cloud, id) && Valid(w.cloud)
  {
    hide Held, BastionCovered, Valid, OwnNetworks, OwnBalancers, BalancerName, BastionTagsOf, ClusterTagsOf;
  }

  /** The Paused condition does not matter. */
  lemma UnpausedAlike(w: World, id: Identity, e: Env)
    ensures Attainable(w.stored.spec, Unpaused(w), w.cloud, id, e) == AttainableIn(w, id, e)
    ensures Recreates(w.stored.spec, Unpaused(w), e) == Recreates(w.stored.spec, w.stored.status, e)
  {
    MarkingOther(w.stored.status, Paused, false, Conditions.NotPaused);
    SameBastionFree(w.stored.spec, w.stored.status, Unpaused(w), w.cloud, w.cloud, id, e);
    SameEndpoint(w.stored.spec, w.stored.status, Unpaused(w), w.cloud, w.cloud, id, e);
    hide BastionFree, EndpointFree, Recreates, KnownAbsent;
  }

  /** A pass whose calls work hides nothing: what it makes it records. */
  lemma WorkingKeepsWhole(w: World, id: Identity, e: Env)
    requires Whole(w, id) && !w.stored.deleting && WorkingPass(w, id, e)
    ensures Whole(Reconcile(w, id, e), id)
  {
    var spec, st := w.stored.spec, Unpaused(w);
    WholeIsSound(w, id);
    assert !HidesNetwork(w, id, e) by { hide ReachesNetwork, MakesNetwork, Whole; }
    assert !HidesBastion(w, id, e) by {
      if TriesBastion(w, id, e) {
        UpToBastion(spec, st, w.cloud, id, e);
        WorkingEnsure(spec, st.bastion.ids, w.cloud, id, BastionNetwork(w, id, e), e);
      }
      hide AtBastion, Whole, Held, Completes, Replaces, BastionTagsOf, EndpointFree, BastionCovered, NetworkSound;
      hide BalancerSound, Valid;
    }
    assert HonestCalls(e) by { hide Whole; }
    hide Whole, HonestCalls, HidesBastion, HidesNetwork, Reconcile, Labeling;
    PassKeepsWholeIff(w, id, e);
  }

  /** One pass of a live cluster in any reachable state, all its calls working: it ends
      ready if and only if nothing is in the way and no bastion is to be made anew. It
      neither clears nor causes such an obstacle, and the next pass finds no bastion to
      make anew. */
  lemma {:induction false} PassDecides(w: World, id: Identity, e: Env)
    requires Whole(w, id) && !w.stored.deleting && WorkingPass(w, id, e)
    ensures var w' := Reconcile(w, id, e);
            && Whole(w', id) && !w'.stored.deleting && w'.stored.spec == w.stored.spec
            && (w'.stored.status.ready <==> AttainableIn(w, id, e) && !Recreates(w.stored.spec, w.stored.status, e))
            && (AttainableIn(w', id, e) <==> AttainableIn(w, id, e))
            && (AttainableIn(w, id, e) ==> !Recreates(w'.stored.spec, w'.stored.status, e))
  {
    WorkingKeepsWhole(w, id, e);
    WholeIsSound(w, id);
    UnpausedAlike(w, id, e);
    NormalDecides(w.stored.spec, Unpaused(w), w.cloud, id, e);
    hide Normal, Whole, CallsWork, Attainable, Recreates, Mark, Sound, Valid;
  }

  lemma SameInputsAlike(w: World, id: Identity, e: Env, e': Env)
    requires SameInputs(e, e')
    ensures AttainableIn(w, id, e') == AttainableIn(w, id, e)
    ensures Recreates(w.stored.spec, w.stored.status, e') == Recreates(w.stored.spec, w.stored.status, e)
  {
    hide Detachable, KnownAbsent, MatchingBalancers, BalancerName, NodeTagsOf;
  }

  /** A working pass with the inputs of e. */
  ghost predicate WorksLike(w: World, id: Identity, ev: Event, e: Env)
  {
    ev.Reconciled? && WorkingPass(w, id, ev.env) && SameInputs(e, ev.env)
  }

  /** Nothing is in the way of a cluster whose own network exists or is managed, whose
      load balancer's name no one else took and whose tags' keys do not collide or which
      was given an endpoint, whose bastion is valid, and which is named like its Cluster
      or has no machine servers left. */
  lemma WhenAttainable(w: World, id: Identity, e: Env)
    requires Whole(w, id) && Labeling(ClusterTagsOf(w.stored.spec, id), e.balancerLabels)
    requires NetworkThere(w.stored.spec, w.cloud) && (w.stored.spec.bastionEnabled ==> w.stored.spec.bastionValid)
    requires var tags := ClusterTagsOf(w.stored.spec, id);
             if w.stored.spec.balancerEnabled
             then
               && Coherent(tags)
               && (BalancerName(id) in w.cloud.balancers ==> BalancerName(id) in OwnBalancers(w.cloud, tags))
             else |w.stored.status.specEndpoint| > 0
    requires id.clusterName == id.name || MachinesGone(w.cloud, OwnerOf(id))
    ensures AttainableIn(w, id, e)
  {
    WhenDetachable(w, id);
    CoherentSeesOwn(w.cloud, ClusterTagsOf(w.stored.spec, id), e.balancerLabels);
    hide Whole, Detachable, MatchingBalancers, OwnBalancers, ClusterTagsOf, NodeTagsOf, BalancerName, Labeling;
    hide Coherent;
    hide KnownAbsent, NeedsRecreate;
  }

  /** Any number of working passes in a row, from any reachable state of a live cluster:
      the first ends ready if and only if nothing is in the way and no bastion is to be
      made anew; after the second and ever after the cluster is ready if and only if
      nothing was in the way at the start. */
  lemma {:induction false} WorkingPassesDecide(w: World, id: Identity, events: seq<Event>, e: Env)
    requires Whole(w, id) && !w.stored.deleting && events != []
    requires Run(w, id, events, (v, ev) => WorksLike(v, id, ev, e))
    ensures var w' := After(w, id, events);
            && Whole(w', id) && !w'.stored.deleting && w'.stored.spec == w.stored.spec
            && (AttainableIn(w', id, e) <==> AttainableIn(w, id, e))
            && (AttainableIn(w, id, e) ==> !Recreates(w'.stored.spec, w'.stored.status, e))
            && (w'.stored.status.ready <==>
                AttainableIn(w, id, e) && !(|events| == 1 && Recreates(w.stored.spec, w.stored.status, e)))
    decreases |events|
  {
    var before, last := events[..|events| - 1], events[|events| - 1];
    var v := After(w, id, before);
    assert WorksLike(v, id, last, e);
    hide Whole, WorksLike, Reconcile, AttainableIn, Recreates, WorkingPass;
    if before != [] {
      RunOfPrefix(w, id, events, e);
      WorkingPassesDecide(w, id, before, e);
    }
    LastWorks(v, id, last, e);
  }

  lemma RunOfPrefix(w: World, id: Identity, events: seq<Event>, e: Env)
    requires events != [] && Run(w, id, events, (v, ev) => WorksLike(v, id, ev, e))
    ensures Run(w, id, events[..|events| - 1], (v, ev) => WorksLike(v, id, ev, e))
  {
    hide WorksLike, After;
    var before := events[..|events| - 1];
    forall i | 0 <= i < |before| ensures WorksLike(After(w, id, before[..i]), id, before[i], e) {
      assert before[..i] == events[..i];
    }
  }

  lemma LastWorks(w: World, id: Identity, ev: Event, e: Env)
    requires Whole(w, id) && !w.stored.deleting && WorksLike(w, id, ev, e)
    ensures var w' := Next(w, id, ev);
            && Whole(w', id) && !w'.stored.deleting && w'.stored.spec == w.stored.spec
            && (w'.stored.status.ready <==> AttainableIn(w, id, e) && !Recreates(w.stored.spec, w.stored.status, e))
            && (AttainableIn(w', id, e) <==> AttainableIn(w, id, e))
            && (AttainableIn(w, id, e) ==> !Recreates(w'.stored.spec, w'.stored.status, e))
  {
    PassDecides(w, id, ev.env);
    SameInputsAlike(w, id, e, ev.env);
    SameInputsAlike(Next(w, id, ev), id, e, ev.env);
    hide Whole, Reconcile, AttainableIn, Recreates, WorkingPass;
  }

  /** Whatever failed, was lost or was deleted before: from then on two working passes
      settle whether the cluster is ready. */
  lemma {:induction false} EveryRunConverges(w: World, id: Identity, before: seq<Event>, passes: seq<Event>, e: Env)
    requires Whole(w, id) && Run(w, id, before, (v, ev) => Fair(v, id, ev)) && |passes| >= 2
    requires var now := After(w, id, before);
             !now.stored.deleting && Run(now, id, passes, (v, ev) => WorksLike(v, id, ev, e))
    ensures var now := After(w, id, before);
            After(now, id, passes).stored.status.ready <==> AttainableIn(now, id, e)
  {
    EveryRunStaysWhole(w, id, before);
    WorkingPassesDecide(After(w, id, before), id, passes, e);
    hide After, Run, Whole, AttainableIn, Recreates;
  }
}
