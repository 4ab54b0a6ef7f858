/** Teardown over whole runs of both controllers: from every reachable state it can
    be finished, and when it finishes nothing of the cluster is left. */
module TeardownRuns {
  import opened Api
  import opened Labels
  import opened CloudModel
  import opened Removal
  import opened ClusterModel
  import opened ClusterRuns
  import opened ClusterTeardown
  import opened CleanTeardown
  import opened BastionMaking
  import opened BastionStages
  import opened BastionCover
  import opened BastionRuns
  import opened TidyCloud
  import opened BastionUpkeep
  import opened NetworkCover
  import opened BalancerCover
  import ClusterNetwork
  import MachineFrames
  import MachineModel

  /** What every reachable state satisfies. */
  ghost predicate Whole(w: World, id: Identity)
  {
    && WorldCovers(w, id)
    && Held(w.stored.spec, w.stored.status.bastion.ids, w.cloud, id)
    && NetworkSound(w.stored.spec, w.stored.status, w.cloud, id)
    && BalancerSound(w.stored.status, w.cloud, id, ClusterTagsOf(w.stored.spec, id))
  }

  /** New resources of others carry none of the tags. */
  predicate Strangers(s: Store, s': Store, tags: Tags)
  {
    forall id :: id in s'.items && s.nextID <= id ==> !Matches(s'.items[id], tags)
  }

  /** Others may delete anything out of band and run resources of their own. */
  ghost predicate Elsewhere(spec: Spec, c: CloudState, c': CloudState, id: Identity)
  {
    var b, n := BastionTagsOf(spec, id), NodeTagsOf(spec, id);
    && Valid(c')
    && Aged(c.servers, c'.servers) && Aged(c.networks, c'.networks)
    && Aged(c.addresses, c'.addresses) && Aged(c.groups, c'.groups)
    && Strangers(c.servers, c'.servers, b) && Strangers(c.addresses, c'.addresses, b)
    && Strangers(c.groups, c'.groups, b) && Strangers(c.groups, c'.groups, n)
    && Strangers(c.networks, c'.networks, ClusterTagsOf(spec, id))
    && ForeignPairs(c, c', b, n)
    && OwnBalancers(c', ClusterTagsOf(spec, id)) <= OwnBalancers(c, ClusterTagsOf(spec, id)) && "" !in c'.balancers
  }

  /** New attachments of others use groups of their own. */
  predicate ForeignPairs(c: CloudState, c': CloudState, b: Tags, n: Tags)
  {
    forall p :: p in c'.attached && p !in c.attached ==>
      p.1 < c'.groups.nextID && p.1 !in Tagged(c', Groups, b) && p.1 !in Tagged(c', Groups, n)
  }

  predicate HonestCalls(e: Env)
  {
    HonestPass(e) && Truthful(e.createNetwork.find)
  }

  /** Any pass with honest answers that does not hide a replaced resource, whatever
      fails, whichever patch is lost and whatever order its label map is made in;
      updates that keep the labels; passes of the Cluster's machines; and others that
      keep to themselves. */
  ghost predicate Fair(w: World, id: Identity, ev: Event)
  {
    match ev
    case Reconciled(e) =>
      && HonestCalls(e) && !HidesBastion(w, id, e) && !HidesNetwork(w, id, e)
      && Labeling(ClusterTagsOf(w.stored.spec, id), e.balancerLabels)
    case SpecUpdated(o) => Tracked(w, id, ev)
    case MachineReconciled(m, mid, e) =>
      && Tracked(w, id, ev)
      && GoodNode(m, w.cloud, mid, e, BastionTagsOf(w.stored.spec, id), NodeTagsOf(w.stored.spec, id), OwnerOf(id))
    case Interference(c) => Elsewhere(w.stored.spec, w.cloud, c, id)
    case DeletionRequested => true
  }

  lemma StrangersShrink(c: CloudState, c': CloudState, kind: Kind, tags: Tags)
    requires Aged(StoreOf(c, kind), StoreOf(c', kind)) && Strangers(StoreOf(c, kind), StoreOf(c', kind), tags)
    ensures Tagged(c', kind, tags) <= Tagged(c, kind, tags)
  {
  }

  lemma ElsewhereShrinks(spec: Spec, c: CloudState, c': CloudState, id: Identity)
    requires Elsewhere(spec, c, c', id)
    ensures Shrinks(spec, c, c', id) && OwnNetworks(spec, c', id) <= OwnNetworks(spec, c, id)
  {
    hide BastionTagsOf, NodeTagsOf, ClusterTagsOf, Tagged, Valid, Aged, Strangers, ForeignPairs, OwnBalancers;
    var b, n := BastionTagsOf(spec, id), NodeTagsOf(spec, id);
    StrangersShrink(c, c', Servers, b);
    StrangersShrink(c, c', Addresses, b);
    StrangersShrink(c, c', Groups, b);
    StrangersShrink(c, c', Groups, n);
    StrangersShrink(c, c', Networks, ClusterTagsOf(spec, id));
  }

  lemma ElsewhereAttached(c: CloudState, c': CloudState, b: Tags, n: Tags, k: Owner)
    requires Valid(c) && Valid(c') && Attached(c, b, n, k) && ForeignPairs(c, c', b, n)
    requires Aged(c.servers, c'.servers) && Aged(c.groups, c'.groups)
    ensures Attached(c', b, n, k)
  {
    hide NodeOf, Matches;
    forall p | p in c'.attached && p.1 in Tagged(c', Groups, b) ensures p.0 in Tagged(c', Servers, b) {
      assert p in c.attached && p.1 in Tagged(c, Groups, b);
      assert p.0 in Tagged(c, Servers, b) && p.0 in c'.servers.items;
    }
    forall p | p in c'.attached && p.1 in Tagged(c', Groups, n) && p.0 in c'.servers.items
      ensures NodeOf(c'.servers.items[p.0], k)
    {
      assert p in c.attached && p.1 in Tagged(c, Groups, n) && p.0 in c.servers.items;
    }
  }

  lemma ElsewhereHeld(spec: Spec, ids: BastionIDs, c: CloudState, c': CloudState, id: Identity)
    requires Held(spec, ids, c, id) && Elsewhere(spec, c, c', id)
    ensures Held(spec, ids, c', id)
  {
    var b, n := BastionTagsOf(spec, id), NodeTagsOf(spec, id);
    ElsewhereShrinks(spec, c, c', id);
    ElsewhereAttached(c, c', b, n, OwnerOf(id));
    OlderKept(ids, c, c', b);
    hide BastionTagsOf, NodeTagsOf, ClusterTagsOf, Tagged, Valid, Aged, Strangers, ForeignPairs, Attached, GroupKept;
    hide IdsKnown;
  }

  // ----------------------------------------------------------- every step keeps it

  lemma InterferenceKeepsWhole(w: World, id: Identity, c: CloudState)
    requires Whole(w, id) && Elsewhere(w.stored.spec, w.cloud, c, id)
    ensures Whole(w.(cloud := c), id)
  {
    var spec, st := w.stored.spec, w.stored.status;
    ElsewhereShrinks(spec, w.cloud, c, id);
    ElsewhereHeld(spec, st.bastion.ids, w.cloud, c, id);
    ShrinkingCovers(spec, st.bastion.ids, w.cloud, c, id);
    NetworkShrinks(spec, st, st, w.cloud, c, id);
    hide Covering, Held, NetworkSound, Shrinks, OwnNetworks, BalancerName, OwnBalancers, Strangers, ForeignPairs;
  }

  lemma SpecUpdateKeepsWhole(w: World, id: Identity, o: StackitCluster)
    requires Whole(w, id) && o.spec.labels == w.stored.spec.labels && Admitted(w.stored, o)
    ensures Whole(w.(stored := o), id)
  {
    SameTags(w.stored.spec, o.spec, id);
    hide Tidy, GroupKept, BalancerName, OwnBalancers, BastionTagsOf, NodeTagsOf, ClusterTagsOf, Tagged;
    hide BastionCovered, Valid;
  }

  lemma MachineKeepsWhole(w: World, id: Identity,
                          m: MachineModel.StackitMachine, mid: MachineModel.Identity, e: MachineModel.Env)
    requires Whole(w, id) && Fair(w, id, MachineReconciled(m, mid, e))
    ensures Whole(Next(w, id, MachineReconciled(m, mid, e)), id)
  {
    var spec, st := w.stored.spec, w.stored.status;
    var mw := MachineModel.World(m, w.cloud, false);
    var c' := MachineModel.Reconcile(mw, mid, e).cloud;
    StepCovers(w, id, MachineReconciled(m, mid, e));
    RolesOf(spec, id);
    MachinePassTidy(mw, mid, e, BastionTagsOf(spec, id), NodeTagsOf(spec, id), OwnerOf(id));
    MachineFrames.MachinePassFrame(mw, mid, e);
    hide MachineModel.Reconcile, WorldCovers, Tidy, BastionTagsOf, NodeTagsOf, OwnNetworks, NetworkSound, BalancerSound;
    hide GoodNode, Tracked, Older, GroupKept, IdsKnown;
    OlderKept(st.bastion.ids, w.cloud, c', BastionTagsOf(spec, id));
    SameNetworks(spec, w.cloud, c', id);
    SameNetworkSound(spec, st, w.cloud, c', id);
    SameBalancers(st, st, w.cloud, c', id, ClusterTagsOf(spec, id));
  }

  lemma SameNetworkSound(spec: Spec, st: Status, c: CloudState, c': CloudState, id: Identity)
    requires NetworkSound(spec, st, c, id) && c'.networks == c.networks
    ensures NetworkSound(spec, st, c', id)
  {
    SameNetworks(spec, c, c', id);
    NetworkShrinks(spec, st, st, c, c', id);
  }

  /** A pass with honest answers keeps all this if and only if it hides neither a
      replaced bastion resource nor a replaced network. */
  lemma {:induction false} PassKeepsWholeIff(w: World, id: Identity, e: Env)
    requires Whole(w, id) && HonestCalls(e) && Labeling(ClusterTagsOf(w.stored.spec, id), e.balancerLabels)
    ensures Whole(Reconcile(w, id, e), id) <==> !HidesBastion(w, id, e) && !HidesNetwork(w, id, e)
  {
    assert IdsKnown(w.cloud, w.stored.status.bastion.ids);
    hide Reconcile, Held, NetworkSound, BalancerSound, HidesBastion, HidesNetwork, NetworkCovered, IdsKnown, Labeling;
    PassHeld(w, id, e);
    NetworkTurnsStaleIff(w, id, e);
    PassBalancerSound(w, id, e, ClusterTagsOf(w.stored.spec, id));
    ClusterNetwork.PassKeepsSpec(w, id, e);
    BastionTurnsStaleIff(w, id, e);
    if !HidesBastion(w, id, e) { PassCovers(w, id, e); }
    hide BastionCovered, Valid;
  }

  lemma StepKeepsWhole(w: World, id: Identity, ev: Event)
    requires Whole(w, id) && Fair(w, id, ev)
    ensures Whole(Next(w, id, ev), id)
  {
    hide Reconcile, MachineModel.Reconcile, HonestCalls, HidesBastion, HidesNetwork, Elsewhere, GoodNode;
    hide Covering, Held, NetworkSound, BalancerSound, Admitted, Labeling;
    match ev
    case Reconciled(e) => PassKeepsWholeIff(w, id, e);
    case SpecUpdated(o) => if Admitted(w.stored, o) { SpecUpdateKeepsWhole(w, id, o); }
    case MachineReconciled(m, mid, e) => MachineKeepsWhole(w, id, m, mid, e);
    case Interference(c) => InterferenceKeepsWhole(w, id, c);
    case DeletionRequested =>
  }

  lemma {:induction false} EveryRunStaysWhole(w: World, id: Identity, events: seq<Event>)
    requires Whole(w, id) && Run(w, id, events, (v, ev) => Fair(v, id, ev))
    ensures Whole(After(w, id, events), id)
  {
    hide Fair, Whole, Next;
    var inv := (v: World) => Whole(v, id);
    var ok := (v, ev) => Fair(v, id, ev);
    forall v: World, ev: Event | inv(v) && ok(v, ev) ensures inv(Next(v, id, ev)) {
      StepKeepsWhole(v, id, ev);
    }
    Invariance(w, id, events, inv, ok);
  }

  // --------------------------------------------------------------- what follows

  lemma WholeCovers(w: World, id: Identity)
    requires Whole(w, id)
    ensures Covered(w.stored.spec, Unpaused(w), w.cloud, id)
    ensures Valid(w.cloud) && "" !in w.cloud.balancers
  {
    hide Held, Valid, BastionTagsOf, NodeTagsOf, ClusterTagsOf, Tagged, OwnBalancers, BalancerName, Covers;
  }

  lemma WholeUnblocksBastion(spec: Spec, st: Status, c: CloudState, id: Identity)
    requires Held(spec, st.bastion.ids, c, id) && BastionCovered(c, BastionTagsOf(spec, id), st.bastion.ids)
    ensures BastionUnblocked(c, BastionTagsOf(spec, id), st.bastion.ids)
  {
    var b := BastionTagsOf(spec, id);
    var recorded := st.bastion.ids;
    RoleTags(spec, id);
    ResolvesIff(c, Servers, recorded.server, b);
    ResolvesIff(c, Groups, recorded.group, b);
    FoundIsTheOne(c, Servers, b, Works);
    FoundIsTheOne(c, Groups, b, Works);
    var server := ResolveID(c, Servers, recorded.server, b, Works);
    var group := ResolveID(c, Groups, recorded.group, b, Works);
    hide BastionTagsOf, NodeTagsOf, Matches, NodesOnly, Find;
    if group.value != 0 && group.value in c.groups.items {
      assert group.value in Tagged(c, Groups, b);
      forall p | p in c.attached && p.1 == group.value ensures p.0 == server.value {
        assert p.0 in Tagged(c, Servers, b);
      }
    }
  }

  /** A recorded group is never a node-SSH group. */
  lemma RecordIsNoNodeGroup(spec: Spec, ids: BastionIDs, c: CloudState, id: Identity)
    requires Held(spec, ids, c, id)
    ensures ids.group !in Tagged(c, Groups, NodeTagsOf(spec, id))
  {
    RoleTags(spec, id);
    if ids.group in c.groups.items {
      RolesExclude(c.groups.items[ids.group], BastionTagsOf(spec, id), NodeTagsOf(spec, id));
    }
    hide Tidy, BastionTagsOf, NodeTagsOf;
  }

  /** What a reachable state can still lack to be unblocked. */
  lemma WholeUnblockedIff(w: World, id: Identity, e: Env)
    requires Whole(w, id) && Labeling(ClusterTagsOf(w.stored.spec, id), e.balancerLabels)
    ensures Unblocked(w.stored.spec, Unpaused(w), w.cloud, id, e) <==>
            Detachable(w.cloud, NodeTagsOf(w.stored.spec, id))
  {
    var spec, st := w.stored.spec, Unpaused(w);
    WholeUnblocksBastion(spec, st, w.cloud, id);
    CoherentSeesOwn(w.cloud, ClusterTagsOf(spec, id), e.balancerLabels);
    hide Valid, BastionTagsOf, NodeTagsOf, ClusterTagsOf, Tagged, BastionUnblocked, BastionCovered, GroupKept;
    hide BastionOnly, NodesOnly, Detachable, MatchingBalancers, OwnBalancers, BalancerName, NetworkCovered, IdsKnown;
    hide Labeling, Coherent;
  }

  /** No server of the Cluster's machines is left. */
  predicate MachinesGone(c: CloudState, k: Owner)
  {
    forall s :: s in c.servers.items ==> !NodeOf(c.servers.items[s], k)
  }

  /** Clean-up recognizes every attached server when the StackitCluster is named like
      its Cluster, and has none to recognize once the machines' servers are gone. */
  lemma {:induction false} WhenDetachable(w: World, id: Identity)
    requires Whole(w, id) && (id.clusterName == id.name || MachinesGone(w.cloud, OwnerOf(id)))
    ensures Detachable(w.cloud, NodeTagsOf(w.stored.spec, id))
  {
    var n := NodeTagsOf(w.stored.spec, id);
    if id.clusterName == id.name { SelectorOfOwner(w.stored.spec, id); }
    forall p | p in w.cloud.attached && p.1 in Tagged(w.cloud, Groups, n) && p.0 in w.cloud.servers.items
      ensures Matches(w.cloud.servers.items[p.0], ClusterSelector(n))
    {
      assert NodeOf(w.cloud.servers.items[p.0], OwnerOf(id));
    }
    hide NodeTagsOf, BastionTagsOf, Covering, NetworkSound, BalancerSound, ClusterSelector;
  }

  lemma SelectorOfOwner(spec: Spec, id: Identity)
    requires id.clusterName == id.name
    ensures forall labels: Tags :: NodeOf(labels, OwnerOf(id)) ==>
              Matches(labels, ClusterSelector(NodeTagsOf(spec, id)))
  {
    AllTagsBelong(id.name, id.namespace, "", "", spec.labels);
    var n := NodeTagsOf(spec, id);
    var reserved := ReservedForCluster(id.name, id.namespace);
    assert forall k :: k in ClusterSelector(n) ==> k in n && k in reserved && ClusterSelector(n)[k] == n[k];
    hide NodeTagsOf;
  }

  /** Over every run, whatever failed on the way: a deletion pass that removes the
      finalizer with credentials in hand leaves no load balancer, bastion server,
      address or group, node-SSH group or managed network of the cluster if and only if
      none of its own lookups and deletions denies something that is there. */
  lemma {:induction false} FinalizerGoneLeavesNothingIff(w: World, id: Identity, events: seq<Event>, e: Env)
    requires Whole(w, id) && Run(w, id, events, (v, ev) => Fair(v, id, ev))
    ensures var now := After(w, id, events);
            var next := Reconcile(now, id, e);
            now.stored.finalizer && Gone(next.stored) && e.client.Built? ==>
              (AllGone(now.stored.spec, next.cloud, id) <==>
                 AllAnswered(now.stored.spec, now.stored.status, now.cloud, id, e))
  {
    EveryRunStaysWhole(w, id, events);
    LastPassIsCompleteIff(After(w, id, events), id, e);
    hide After, Run, Whole, Reconcile, AllGone, AllAnswered;
  }

  lemma LastPassIsCompleteIff(w: World, id: Identity, e: Env)
    requires Whole(w, id)
    ensures w.stored.finalizer && Gone(Reconcile(w, id, e).stored) && e.client.Built? ==>
              (AllGone(w.stored.spec, Reconcile(w, id, e).cloud, id) <==>
                 AllAnswered(w.stored.spec, w.stored.status, w.cloud, id, e))
  {
    SameAnswers(w.stored.spec, w.stored.status, Unpaused(w), w.cloud, id, e);
    hide CleanUp, Normal, Whole, AllGone, Covered, AllAnswered, Valid;
    WholeCovers(w, id);
    if CleanUp(w.stored.spec, Unpaused(w), w.cloud, id, e).go {
      TeardownCompleteIff(w.stored.spec, Unpaused(w), w.cloud, id, e);
    }
  }

  /** Conditions do not matter for the answers. */
  lemma SameAnswers(spec: Spec, st: Status, st': Status, c: CloudState, id: Identity, e: Env)
    requires st'.bastion == st.bastion && st'.network == st.network && st'.balancerID == st.balancerID
    ensures AllAnswered(spec, st', c, id, e) == AllAnswered(spec, st, c, id, e)
  {
    hide Tagged, BastionTagsOf, NodeTagsOf, ClusterTagsOf, OwnBalancers, MatchingBalancers;
  }

  /** In particular with honest answers: exactly when the lookup of an unrecorded load
      balancer is not refused and sees it, as it does for tags whose keys do not
      collide, or there is none. */
  lemma {:induction false} FinalizerGoneMeansAllGone(w: World, id: Identity, events: seq<Event>, e: Env)
    requires Whole(w, id) && Run(w, id, events, (v, ev) => Fair(v, id, ev)) && HonestDeletion(e)
    ensures var now := After(w, id, events);
            var next := Reconcile(now, id, e);
            now.stored.finalizer && Gone(next.stored) && e.client.Built? ==>
              (AllGone(now.stored.spec, next.cloud, id) <==>
                 BalancerSeen(now.stored.status, now.cloud, ClusterTagsOf(now.stored.spec, id), e))
  {
    var now := After(w, id, events);
    FinalizerGoneLeavesNothingIff(w, id, events, e);
    HonestAnswers(now.stored.spec, now.stored.status, now.cloud, id, e);
    hide After, Run, Whole, Reconcile, AllGone, AllAnswered, BalancerSeen, HonestDeletion;
  }

  /** When that is so, from what a caller can check. */
  lemma BalancerSeenIff(st: Status, c: CloudState, tags: Tags, e: Env)
    requires Labeling(tags, e.balancerLabels) && Coherent(tags)
    ensures BalancerSeen(st, c, tags, e) <==>
            |st.balancerID| > 0 || !e.balancer.serviceOff || OwnBalancers(c, tags) == {}
  {
    CoherentSeesOwn(c, tags, e.balancerLabels);
    hide OwnBalancers, MatchingBalancers, Labeling, Coherent;
  }

  /** A deletion pass in which no call fails and no Machine remains. */
  ghost predicate CleanDeletion(w: World, id: Identity, e: Env)
  {
    && e.ownersFound && !e.paused && e.finalPatchLands && e.machinesListed && |e.machines| == 0
    && e.client.Built? && DeletionWorks(e, w.cloud) && Labeling(ClusterTagsOf(w.stored.spec, id), e.balancerLabels)
  }

  /** Over every run, from whatever state failed passes and lost patches left: a
      deletion pass in which no call fails and no Machine remains removes the finalizer
      if and only if every server that still uses a node-SSH group matches the selector
      of its clean-up, and then leaves nothing if and only if an unrecorded load
      balancer is seen. The first holds when the StackitCluster is named like its
      Cluster or the machines' servers are gone. */
  lemma {:induction false} TeardownIsRestartable(w: World, id: Identity, events: seq<Event>, e: Env)
    requires Whole(w, id) && Run(w, id, events, (v, ev) => Fair(v, id, ev))
    requires CleanDeletion(After(w, id, events), id, e)
    ensures var now := After(w, id, events);
            var next := Reconcile(now, id, e);
            now.stored.deleting && now.stored.finalizer ==>
              && (Gone(next.stored) <==> Detachable(now.cloud, NodeTagsOf(now.stored.spec, id)))
              && (Gone(next.stored) ==>
                    (AllGone(now.stored.spec, next.cloud, id) <==>
                       BalancerSeen(now.stored.status, now.cloud, ClusterTagsOf(now.stored.spec, id), e)))
              && (id.clusterName == id.name || MachinesGone(now.cloud, OwnerOf(id)) ==> Gone(next.stored))
  {
    EveryRunStaysWhole(w, id, events);
    var now := After(w, id, events);
    hide After, Run;
    if now.stored.deleting && now.stored.finalizer { CleanPassFinishesIff(now, id, e); }
    if id.clusterName == id.name || MachinesGone(now.cloud, OwnerOf(id)) { WhenDetachable(now, id); }
    hide Whole, Reconcile, AllGone, CleanDeletion, Detachable, MachinesGone, BalancerSeen;
  }

  lemma CleanPassFinishesIff(w: World, id: Identity, e: Env)
    requires Whole(w, id) && w.stored.deleting && w.stored.finalizer && CleanDeletion(w, id, e)
    ensures Gone(Reconcile(w, id, e).stored) <==> Detachable(w.cloud, NodeTagsOf(w.stored.spec, id))
    ensures Gone(Reconcile(w, id, e).stored) ==>
              (AllGone(w.stored.spec, Reconcile(w, id, e).cloud, id) <==>
                 BalancerSeen(w.stored.status, w.cloud, ClusterTagsOf(w.stored.spec, id), e))
  {
    WholeUnblockedIff(w, id, e);
    WholeCovers(w, id);
    WorkingIsHonest(e, w.cloud);
    RecordIsNoNodeGroup(w.stored.spec, w.stored.status.bastion.ids, w.cloud, id);
    CleanTeardownFinishesIff(w.stored.spec, Unpaused(w), w.cloud, id, e);
    LastPassIsCompleteIff(w, id, e);
    HonestAnswers(w.stored.spec, w.stored.status, w.cloud, id, e);
    hide CleanUp, ClusterModel.Delete, Normal, Whole, AllGone, HonestDeletion, DeletionWorks, Unblocked, Valid;
    hide Detachable, Covered, Tagged, AllAnswered, BalancerSeen, Labeling;
  }

  /** An unrecorded load balancer that the lookup does not see outlives its cluster. */
  lemma UnseenBalancerLeaks(w: World, id: Identity, e: Env)
    requires Whole(w, id) && w.stored.deleting && w.stored.finalizer && CleanDeletion(w, id, e)
    requires Detachable(w.cloud, NodeTagsOf(w.stored.spec, id)) && |w.stored.status.balancerID| == 0
    requires OwnBalancers(w.cloud, ClusterTagsOf(w.stored.spec, id)) != {}
    requires e.balancer.serviceOff || MatchingBalancers(w.cloud, e.balancerLabels) == {}
    ensures var next := Reconcile(w, id, e); Gone(next.stored) && !AllGone(w.stored.spec, next.cloud, id)
  {
    CleanPassFinishesIff(w, id, e);
    hide Reconcile, Whole, AllGone, CleanDeletion, Detachable, OwnBalancers, MatchingBalancers, ClusterTagsOf;
  }

  lemma WorkingIsHonest(e: Env, c: CloudState)
    requires DeletionWorks(e, c)
    ensures HonestDeletion(e)
  {
  }

  /** A new object in an untouched cloud is where such runs start. */
  lemma FreshIsWhole(w: World, id: Identity)
    requires Valid(w.cloud) && w.stored.status.bastion == NoBastion
    requires w.stored.status.network == 0 && |w.stored.status.balancerID| == 0 && "" !in w.cloud.balancers
    requires AllGone(w.stored.spec, w.cloud, id)
    requires forall p :: p in w.cloud.attached ==> p.1 < w.cloud.groups.nextID
    ensures Whole(w, id)
  {
    hide BastionTagsOf, NodeTagsOf, ClusterTagsOf, BalancerName, OwnBalancers, Matches, NodeOf;
  }
}
