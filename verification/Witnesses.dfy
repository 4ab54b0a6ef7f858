/** Concrete states in which the promises that hold only conditionally fail. */
module Witnesses {
  import opened Api
  import opened Labels
  import opened CloudModel
  import opened CloudValidity
  import opened ClusterTeardown
  import opened CleanTeardown
  import opened BastionMaking
  import opened BastionStages
  import opened BastionCover
  import opened BastionSkip
  import opened BastionUpkeep
  import opened NetworkCover
  import opened BalancerCover
  import opened TidyCloud
  import opened TeardownRuns
  import opened StaleRecords
  import opened ClusterConverges
  import C = ClusterModel
  import ClusterBalancer
  import Conditions
  import L = MachineRelabel
  import M = MachineModel
  import R = MachineRuns
  import TargetPool
  import Zones

  const Nothing := Store(map[], 1)
  const Calm := FindOrCreateCalls(Works, Works)

  // ------------------------------------------------------------------------ machine

  /** A pass of a live or deleted machine; find, create and delete as given. */
  function MachinePassWith(find: Outcome, create: FindOrCreateCalls, delete: Outcome): M.Env
  {
    M.Env(true, false, M.ClusterView(true, 0, 1, [], false, 0), 0, "", "", M.BootstrapAvailable, Built, true,
          Works, find, create, delete, EnsureNodeSSHCalls(Calm, Works, Works), true, true)
  }

  /** One server that carries the tags, and an object that does not know its ID. */
  function LostInstance(tags: Tags, deleting: bool): M.World
  {
    M.World(M.StackitMachine(deleting, true, false, false, 0, 0, map[]),
            CloudState(Store(map[1 := tags], 2), Nothing, Nothing, Nothing, {}, map[]), false)
  }

  lemma LostIsSafe(tags: Tags, deleting: bool)
    requires tags != map[]
    ensures var w, id := LostInstance(tags, deleting), M.Identity(tags, map[]); R.Safe(w, id) && R.Own(w, id) == {1}
  {
    assert Matches(tags, tags);
    assert 1 in R.Own(LostInstance(tags, deleting), M.Identity(tags, map[]));
  }

  const Tag: Tags := map["k" := "v"]

  lemma TagThere()
    ensures Tag != map[]
  {
    assert "k" in Tag;
  }

  /** Both listings wrongly answer "not found": the pass creates another server. */
  lemma DuplicateServer()
    ensures var id, denied := M.Identity(Tag, map[]), Rejected(NotFound);
            var e := MachinePassWith(denied, FindOrCreateCalls(denied, Works), Works);
            R.Safe(LostInstance(Tag, false), id) && !AtMostOne(R.Own(M.Reconcile(LostInstance(Tag, false), id, e), id))
  {
    var denied := Rejected(NotFound);
    TagThere();
    LostIsSafe(Tag, false);
    R.DuplicateIffListingsDenyIt(LostInstance(Tag, false), M.Identity(Tag, map[]),
                                 MachinePassWith(denied, FindOrCreateCalls(denied, Works), Works));
  }

  /** The listing wrongly answers "not found": the finalizer goes and the server stays. */
  lemma ServerLeftBehind()
    ensures var id, e := M.Identity(Tag, map[]), MachinePassWith(Rejected(NotFound), Calm, Works);
            var next := M.Reconcile(LostInstance(Tag, true), id, e);
            R.Safe(LostInstance(Tag, true), id) && M.Gone(next.stored) && R.Own(next, id) != {}
  {
    TagThere();
    LostIsSafe(Tag, true);
    R.LeftBehindIff(LostInstance(Tag, true), M.Identity(Tag, map[]), MachinePassWith(Rejected(NotFound), Calm, Works));
  }

  /** A label is added before the instance is recorded, and every call works: there are
      two servers of one machine, or, if it is being deleted, one that nobody owns. */
  lemma RelabelledServer()
    ensures var id, e := M.Identity(MachineTags("c", "n", "m", "u", Tag), map[]), MachinePassWith(Works, Calm, Works);
            var was := MachineTags("c", "n", "m", "u", map[]);
            && !AtMostOne(L.OfMachine(M.Reconcile(LostInstance(was, false), id, e).cloud.servers.items, "u"))
            && M.Gone(M.Reconcile(LostInstance(was, true), id, e).stored)
            && 1 in M.Reconcile(LostInstance(was, true), id, e).cloud.servers.items
  {
    var was, e := MachineTags("c", "n", "m", "u", map[]), MachinePassWith(Works, Calm, Works);
    L.TagsNameMachine("c", "n", "m", "u", map[]);
    assert !OnlyDrops(map[], Tag, L.ReservedKeys()) by { NewLabel(); }
    var items: map<Id, Tags> := map[1 := was];
    assert L.OfMachine(items, "u") == {1};
    L.SecondServerIff(LostInstance(was, false), "c", "n", "m", "u", map[], Tag, map[], 1, e);
    L.LeftBehindAfterRelabelIff(LostInstance(was, true), "c", "n", "m", "u", map[], Tag, map[], 1, e);
  }

  lemma NewLabel()
    ensures !OnlyDrops(map[], Tag, L.ReservedKeys())
  {
    KeysDiffer();
    assert |"k"| == 1;
    assert "k" in Tag && "k" !in L.ReservedKeys();
  }

  /** A machine server of Cluster "c" still uses the node-SSH group of StackitCluster
      "s": every call works, and the access cannot be removed. */
  lemma NamesDiffer() returns (c: CloudState)
    ensures Valid(c) && NodeSSHWorks(AllListed(), c)
    ensures DeleteNodeSSH(c, NodeSSHTags("s", "n", map[]), AllListed()).result.Err?
  {
    var n, m := NodeSSHTags("s", "n", map[]), MachineTags("c", "n", "m", "u", map[]);
    c := CloudState(Store(map[1 := m], 2), Nothing, Nothing, Store(map[1 := n], 2), {(1, 1)}, map[]);
    assert Matches(n, n);
    assert 1 in Tagged(c, Groups, n);
    assert "c" != "s" by { assert "c"[0] != "s"[0]; }
    NamesMustAgree(c, "s", "n", map[], "c", "m", "u", map[], 1, 1, AllListed());
  }

  function AllListed(): DeleteNodeSSHCalls { DeleteNodeSSHCalls(Works, Works, [1], _ => Works, Works, Works) }

  // ------------------------------------------------------------------------ cluster

  /** Every call works but those of EnsureBastion, which are given; the final patch
      lands or is lost. */
  function ClusterPassWith(sha: TargetPool.Digest, labels: Tags, ensure_: EnsureBastionCalls, lands: bool): C.Env
  {
    C.Env(true, false, Built, Works, [], Works, Calm, [], true, [], sha, labels,
          EnsureBalancerCalls(Works, false, Works), "", SetTargetsCalls(Works, Works), true, 0,
          AllListed(), DeleteBastionCalls(Works, Works, Works, Works, Works, Works, Works, Works, Works),
          ensure_, true, "192.0.2.7", Works, Works, Works, true, lands)
  }

  const AllWork := EnsureBastionCalls(Calm, Works, Calm, Works, Calm, true, Works, Works)
  const AssignFails := EnsureBastionCalls(Calm, Works, Calm, Works, Calm, true, Rejected(Transient), Works)

  function Object(network: Id, recorded: Id, bastion: C.BastionStatus,
                  conditions: map<C.ConditionType, Conditions.Condition>): C.StackitCluster
  {
    C.StackitCluster(false, true, C.Spec(network, false, true, true, map[]),
                     C.Status("192.0.2.1", false, false, recorded, false, "", "", bastion, [], conditions))
  }

  const Name := C.Identity("a", "b", "a", "eu01")

  function NameTags(): Tags { ClusterTags("a", "b", map[]) }

  ghost function NameLabels(): Tags { SomeLabels(NameTags()) }

  lemma BastionStageReached(w: C.World, e: C.Env)
    requires w.stored.spec == C.Spec(1, false, true, true, map[]) && |w.stored.status.specEndpoint| > 0
    requires w.stored.finalizer && !w.stored.deleting && 1 in w.cloud.networks.items
    requires e.client.Built? && e.listZones.Works? && e.getNetwork.Works? && e.ownersFound && !e.paused
    ensures ReachesBastion(w, Name, e) && BastionNetwork(w, Name, e) == 1
  {
    hide Zones.Publish, Zones.RegionZones, FindOrCreate, Conditions.IsTrue;
  }

  /** The bastion is enabled again after a clean-up, and the pass that makes it loses
      its patch: the object still says Skipped. */
  lemma SkippedUntrue(sha: TargetPool.Digest, labels: Tags)
    ensures Valid(Skipped().cloud) && WorldSkipHolds(Skipped(), Name) &&
            HonestPass(ClusterPassWith(sha, labels, AllWork, false))
    ensures !WorldSkipHolds(C.Reconcile(Skipped(), Name, ClusterPassWith(sha, labels, AllWork, false)), Name)
  {
    var w, e := Skipped(), ClusterPassWith(sha, labels, AllWork, false);
    BastionStageReached(w, e);
    SkippedIsClean();
    SkippedMakesGroup();
    hide C.Reconcile, ReachesBastion, BastionNetwork, Valid, WorldSkipHolds, C.BastionTagsOf, GroupMade;
    SkippedTurnsFalseIff(w, Name, e);
  }

  lemma SkippedMakesGroup()
    ensures GroupMade(Skipped().cloud, C.BastionTagsOf(Skipped().stored.spec, Name), 1, AllWork)
  {
    hide C.BastionTagsOf;
  }

  /** Cleaned up, and then enabled again. */
  function Skipped(): C.World
  {
    C.World(Object(1, 1, C.NoBastion, map[C.BastionReady := Conditions.Condition(true, Conditions.Skipped)]),
            CloudState(Nothing, Store(map[1 := map[]], 2), Nothing, Nothing, {}, map[]), false)
  }

  lemma SkippedIsClean()
    ensures Valid(Skipped().cloud) && WorldSkipHolds(Skipped(), Name)
  {
    hide C.BastionTagsOf, C.NodeTagsOf;
  }

  /** A recorded bastion (1, 1, 1) of which others deleted the address or the server. */
  function Damaged(addressGone: bool): C.World
  {
    var b := C.BastionTagsOf(C.Spec(1, false, true, true, map[]), Name);
    C.World(Object(1, 1, C.BastionStatus(BastionIDs(1, 1, 1), "192.0.2.7", 0), map[]),
            if addressGone
            then CloudState(Store(map[1 := b], 2), Store(map[1 := map[]], 2), Store(map[], 2), Store(map[1 := b], 2),
                            {(1, 1)}, map[])
            else CloudState(Store(map[], 2), Store(map[1 := map[]], 2), Store(map[1 := b], 2), Store(map[1 := b], 2),
                            {}, map[]),
            false)
  }

  lemma DamagedTags(addressGone: bool)
    ensures var c := Damaged(addressGone).cloud;
            var spec := Damaged(addressGone).stored.spec;
            var b, n := C.BastionTagsOf(spec, Name), C.NodeTagsOf(spec, Name);
            && Tagged(c, Groups, b) == {1} && Tagged(c, Groups, n) == {}
            && Tagged(c, Servers, b) == (if addressGone then {1} else {})
            && Tagged(c, Addresses, b) == (if addressGone then {} else {1})
            && Tagged(c, Networks, C.ClusterTagsOf(spec, Name)) == {}
  {
    var spec := Damaged(addressGone).stored.spec;
    var b, n, k := C.BastionTagsOf(spec, Name), C.NodeTagsOf(spec, Name), C.ClusterTagsOf(spec, Name);
    RoleTags(spec, Name);
    assert Matches(b, b);
    KeysDiffer();
    assert !Matches(b, n);
    assert ManagedBy in k && !Matches(map[], k);
    hide C.BastionTagsOf, C.NodeTagsOf, C.ClusterTagsOf, Matches;
  }

  lemma DamagedIsValid(addressGone: bool)
    ensures Valid(Damaged(addressGone).cloud)
  {
    hide C.BastionTagsOf;
  }

  /** A record (1, 1, 1) in a cloud that has handed out no other ID. */
  lemma SmallIsHeld(spec: C.Spec, c: CloudState, id: C.Identity)
    requires var b, n := C.BastionTagsOf(spec, id), C.NodeTagsOf(spec, id);
             && Valid(c) && Tagged(c, Groups, b) == {1} && Tagged(c, Groups, n) == {}
             && Tagged(c, Servers, b) <= {1} && Tagged(c, Addresses, b) <= {1}
             && (c.attached == {} || (c.attached == {(1, 1)} && 1 in Tagged(c, Servers, b)))
    requires c.servers.nextID == 2 && c.addresses.nextID == 2 && c.groups.nextID == 2
    ensures Covering(spec, BastionIDs(1, 1, 1), c, id) && Held(spec, BastionIDs(1, 1, 1), c, id)
  {
    var b := C.BastionTagsOf(spec, id);
    assert 1 in Tagged(c, Groups, b);
    assert GroupKept(1, c, b);
    hide C.BastionTagsOf, C.NodeTagsOf, Tagged, Matches, NodeOf, Valid, GroupKept;
  }

  lemma DamagedIsHeld(addressGone: bool)
    ensures var w := Damaged(addressGone);
            WorldCovers(w, Name) && Held(w.stored.spec, w.stored.status.bastion.ids, w.cloud, Name)
  {
    var w := Damaged(addressGone);
    DamagedTags(addressGone);
    DamagedIsValid(addressGone);
    hide C.BastionTagsOf, C.NodeTagsOf, Tagged, Valid, Held, Covering;
    SmallIsHeld(w.stored.spec, w.cloud, Name);
  }

  lemma DamagedRecords(addressGone: bool)
    ensures var w := Damaged(addressGone);
            && NetworkSound(w.stored.spec, w.stored.status, w.cloud, Name)
            && BalancerSound(w.stored.status, w.cloud, Name, C.ClusterTagsOf(w.stored.spec, Name))
  {
    var w := Damaged(addressGone);
    DamagedTags(addressGone);
    assert OwnBalancers(w.cloud, C.ClusterTagsOf(w.stored.spec, Name)) == {};
    hide C.BastionTagsOf, C.NodeTagsOf, C.ClusterTagsOf, Tagged, C.BalancerName, OwnBalancers;
  }

  lemma DamagedIsWhole(addressGone: bool)
    ensures Whole(Damaged(addressGone), Name)
  {
    hide Damaged, WorldCovers, Held, NetworkSound, BalancerSound;
    DamagedIsHeld(addressGone);
    DamagedRecords(addressGone);
  }

  lemma WorkingIsHonestPass(sha: TargetPool.Digest, labels: Tags, ensure_: EnsureBastionCalls, lands: bool)
    requires HonestEnsure(ensure_)
    ensures HonestCalls(ClusterPassWith(sha, labels, ensure_, lands))
  {
  }

  lemma TriesToEnsure(addressGone: bool, e: C.Env)
    requires e.client.Built? && e.listZones.Works? && e.getNetwork.Works? && e.ownersFound && !e.paused
    requires e.cloudInitFound && e.cloudInitHash == 0
    ensures TriesBastion(Damaged(addressGone), Name, e) && BastionNetwork(Damaged(addressGone), Name, e) == 1
  {
    BastionStageReached(Damaged(addressGone), e);
    hide ReachesBastion, BastionNetwork, C.BastionTagsOf;
  }

  lemma MakesAddress(c: CloudState, b: Tags)
    requires Tagged(c, Groups, b) == {1} && Tagged(c, Servers, b) == {1} && Tagged(c, Addresses, b) == {}
    ensures AddressMade(c, b, 1, AssignFails) && !Completes(c, b, 1, AssignFails)
    ensures !ServerMade(c, b, 1, AssignFails)
  {
    hide Tagged;
  }

  lemma MakesServer(c: CloudState, b: Tags)
    requires Tagged(c, Groups, b) == {1} && Tagged(c, Servers, b) == {}
    ensures ServerMade(c, b, 1, AllWork) && !GroupMade(c, b, 1, AllWork)
  {
    hide Tagged;
  }

  /** Others deleted the address, EnsureBastion makes another and then fails to assign
      it, and the patch lands: the record still names the old one. Teardown is not
      blocked, so it leaks, and disabling the bastion persists an untrue Skipped. */
  lemma AddressHidden(sha: TargetPool.Digest, labels: Tags)
    ensures var w, e := Damaged(true), ClusterPassWith(sha, labels, AssignFails, true);
            && Whole(w, Name) && HonestCalls(e) && e.finalPatchLands
            && HidesBastion(w, Name, e) && !BlocksTeardown(w, Name, e)
  {
    var w, e := Damaged(true), ClusterPassWith(sha, labels, AssignFails, true);
    DamagedIsWhole(true);
    DamagedTags(true);
    WorkingIsHonestPass(sha, labels, AssignFails, true);
    TriesToEnsure(true, e);
    hide TriesBastion, BastionNetwork, Whole, Tagged, C.BastionTagsOf, HonestCalls, AddressMade, ServerMade;
    hide GroupMade, Completes;
    MakesAddress(w.cloud, C.BastionTagsOf(w.stored.spec, Name));
  }

  /** Others deleted the server, EnsureBastion makes another and goes through, and the
      patch is lost: the record still names the old one, and teardown is blocked. */
  lemma ServerHidden(sha: TargetPool.Digest, labels: Tags)
    ensures var w, e := Damaged(false), ClusterPassWith(sha, labels, AllWork, false);
            Whole(w, Name) && HonestCalls(e) && HidesBastion(w, Name, e) && BlocksTeardown(w, Name, e)
  {
    var w, e := Damaged(false), ClusterPassWith(sha, labels, AllWork, false);
    DamagedIsWhole(false);
    DamagedTags(false);
    WorkingIsHonestPass(sha, labels, AllWork, false);
    TriesToEnsure(false, e);
    hide TriesBastion, BastionNetwork, Whole, Tagged, C.BastionTagsOf, HonestCalls, AddressMade, ServerMade;
    hide GroupMade, Completes;
    MakesServer(w.cloud, C.BastionTagsOf(w.stored.spec, Name));
  }

  /** The recorded network was deleted by others, and the pass that replaces it loses
      its patch: the record now hides the new network from teardown. */
  lemma NetworkStale(sha: TargetPool.Digest, labels: Tags) returns (w: C.World)
    ensures NetworkSound(w.stored.spec, w.stored.status, w.cloud, Name)
    ensures var w' := C.Reconcile(w, Name, ClusterPassWith(sha, labels, AllWork, false));
            !NetworkCovered(w'.stored.spec, w'.stored.status, w'.cloud, Name)
  {
    var e := ClusterPassWith(sha, labels, AllWork, false);
    w := C.World(Object(0, 1, C.NoBastion, map[]), CloudState(Nothing, Store(map[], 2), Nothing, Nothing, {}, map[]),
                 false);
    assert ReachesNetwork(w, Name, e) by { hide Zones.Publish, Zones.RegionZones; }
    hide C.Reconcile, ReachesNetwork;
    NetworkTurnsStaleIff(w, Name, e);
  }

  /** The recorded load balancer is gone and another cluster of the same name has taken
      the name: the deletion pass deletes that cluster's load balancer. */
  lemma ForeignBalancerDeleted(sha: TargetPool.Digest) returns (w: C.World)
    ensures ClusterBalancer.DeletesForeign(w, C.Reconcile(w, Name, ClusterPassWith(sha, NameLabels(), AllWork, true)),
                                           NameTags())
  {
    var e, name := ClusterPassWith(sha, NameLabels(), AllWork, true), C.BalancerName(Name);
    var o := Object(1, 1, C.NoBastion, map[]);
    w := C.World(o.(deleting := true, status := o.status.(balancerID := name)),
                 CloudState(Nothing, Store(map[1 := map[]], 2), Nothing, Nothing, {},
                            map[name := Balancer(map[], 6443, [])]),
                 false);
    assert |name| > 0;
    NothingCarried();
    assert NameTags() == C.ClusterTagsOf(w.stored.spec, Name);
    SomeLabeling(NameTags());
    hide C.Reconcile, C.BalancerName, Carries, Labeling, NameTags, SomeLabels, ClusterBalancer.DeletesForeign;
    ClusterBalancer.DeletesForeignIff(w, Name, e);
  }

  /** A load balancer without labels is nobody's. */
  lemma NothingCarried()
    ensures !Carries(map[], NameTags())
  {
    KeysDiffer();
    forall l | Labeling(NameTags(), l) ensures !MapContains(map[], l) {
      assert ManagedBy in NameTags();
      var key := SlashesToDots(ManagedBy);
      assert key in l;
      var k :| k in NameTags() && SlashesToDots(k) == key && l[key] == NameTags()[k];
      assert |NameTags()[k]| > 0;
    }
  }

  // ------------------------------------------------- a load balancer that is not seen

  /** A cluster being deleted that lost the ID of its only resource, a load balancer
      created with the given labels. */
  function Leftover(extra: Tags, labels: Tags): C.World
  {
    var o := Object(0, 0, C.NoBastion, map[]);
    C.World(o.(deleting := true, spec := o.spec.(labels := extra)),
            CloudState(Nothing, Nothing, Nothing, Nothing, {},
                       map[C.BalancerName(Name) := Balancer(labels, 6443, [])]),
            false)
  }

  function LeftoverTags(extra: Tags): Tags { C.ClusterTagsOf(Leftover(extra, map[]).stored.spec, Name) }

  lemma LeftoverBalancer(extra: Tags, labels: Tags)
    requires Labeling(LeftoverTags(extra), labels)
    ensures var w, tags := Leftover(extra, labels), LeftoverTags(extra);
            && OwnBalancers(w.cloud, tags) == {C.BalancerName(Name)}
            && BalancerSound(w.stored.status, w.cloud, Name, tags)
  {
    ClusterBalancer.OwnLabels(labels, labels, LeftoverTags(extra));
    assert |C.BalancerName(Name)| > 0;
    hide C.ClusterTagsOf, C.BalancerName, Carries, Labeling;
  }

  /** A cloud of load balancers only. */
  lemma EmptyIsHeld(spec: C.Spec, st: C.Status, c: CloudState, id: C.Identity)
    requires c.servers == Nothing && c.networks == Nothing && c.addresses == Nothing && c.groups == Nothing
    requires c.attached == {} && st.bastion == C.NoBastion && st.network == 0
    ensures Covering(spec, st.bastion.ids, c, id) && Held(spec, st.bastion.ids, c, id) && NetworkSound(spec, st, c, id)
    ensures Detachable(c, C.NodeTagsOf(spec, id))
  {
    hide C.BastionTagsOf, C.NodeTagsOf, C.ClusterTagsOf, Matches, NodeOf;
  }

  lemma LeftoverIsWhole(extra: Tags, labels: Tags)
    requires Labeling(LeftoverTags(extra), labels)
    ensures var w := Leftover(extra, labels);
            && Whole(w, Name) && OwnBalancers(w.cloud, LeftoverTags(extra)) == {C.BalancerName(Name)}
            && Detachable(w.cloud, C.NodeTagsOf(w.stored.spec, Name))
  {
    var w := Leftover(extra, labels);
    LeftoverBalancer(extra, labels);
    hide C.ClusterTagsOf, C.BalancerName, OwnBalancers, Labeling, Covering, Held, NetworkSound, BalancerSound;
    hide Detachable;
    EmptyIsHeld(w.stored.spec, w.stored.status, w.cloud, Name);
  }

  /** A deletion pass whose calls all work, with the given label map. */
  function CleanPass(sha: TargetPool.Digest, labels: Tags, serviceOff: bool): C.Env
  {
    var e := ClusterPassWith(sha, labels, AllWork, true);
    e.(balancer := e.balancer.(serviceOff := serviceOff))
  }

  lemma CleanPassIsClean(sha: TargetPool.Digest, extra: Tags, created: Tags, labels: Tags, serviceOff: bool)
    requires Labeling(LeftoverTags(extra), labels)
    ensures CleanDeletion(Leftover(extra, created), Name, CleanPass(sha, labels, serviceOff))
  {
    assert ManagedBy in LeftoverTags(extra);
    assert labels != map[];
    hide C.ClusterTagsOf, Labeling, C.BalancerName;
  }

  /** The listing of load balancers is refused with "Service not enabled": the
      finalizer goes and the load balancer stays. */
  lemma RefusedListingLeaks(sha: TargetPool.Digest)
    ensures var labels := SomeLabels(LeftoverTags(map[]));
            var w := Leftover(map[], labels);
            var next := C.Reconcile(w, Name, CleanPass(sha, labels, true));
            Whole(w, Name) && C.Gone(next.stored) && !AllGone(w.stored.spec, next.cloud, Name)
  {
    var labels := SomeLabels(LeftoverTags(map[]));
    SomeLabeling(LeftoverTags(map[]));
    LeftoverIsWhole(map[], labels);
    CleanPassIsClean(sha, map[], labels, labels, true);
    hide C.Reconcile, Whole, AllGone, OwnBalancers, CleanDeletion, Labeling, SomeLabels, Detachable, C.ClusterTagsOf;
    hide C.BalancerName;
    UnseenBalancerLeaks(Leftover(map[], labels), Name, CleanPass(sha, labels, true));
  }

  /** For all user labels that make the tags incoherent there are two map orders such
      that a load balancer created in one is not seen in the other, although every call
      works: the finalizer goes and the load balancer stays. */
  lemma {:induction false} IncoherentTagsLeak(sha: TargetPool.Digest, extra: Tags) returns (created: Tags, sought: Tags)
    requires !Coherent(LeftoverTags(extra))
    ensures Labeling(LeftoverTags(extra), created) && Labeling(LeftoverTags(extra), sought)
    ensures var w := Leftover(extra, created);
            var next := C.Reconcile(w, Name, CleanPass(sha, sought, false));
            Whole(w, Name) && C.Gone(next.stored) && !AllGone(w.stored.spec, next.cloud, Name)
  {
    created, sought := TwoOrders(LeftoverTags(extra));
    hide C.Reconcile, Whole, AllGone, OwnBalancers, CleanDeletion, Labeling, Detachable, C.ClusterTagsOf;
    hide MatchingBalancers;
    hide MapContains, Coherent, C.BalancerName;
    LeftoverIsWhole(extra, created);
    CleanPassIsClean(sha, extra, created, sought, false);
    LeftoverUnseen(extra, created, sought);
    UnseenBalancerLeaks(Leftover(extra, created), Name, CleanPass(sha, sought, false));
  }

  lemma TwoOrders(tags: Tags) returns (created: Tags, sought: Tags)
    requires !Coherent(tags)
    ensures Labeling(tags, created) && Labeling(tags, sought) && !MapContains(created, sought)
  {
    FoundAgainIffCoherent(tags);
    hide Labeling, MapContains, Coherent;
    created, sought :| Labeling(tags, created) && Labeling(tags, sought) && !MapContains(created, sought);
  }

  lemma LeftoverUnseen(extra: Tags, created: Tags, sought: Tags)
    requires !MapContains(created, sought)
    ensures MatchingBalancers(Leftover(extra, created).cloud, sought) == {}
  {
    hide C.BalancerName, MapContains;
  }

  // --------------------------------------------- a load balancer that is in the way

  /** The same cluster alive, with its load balancer enabled. */
  function Live(extra: Tags, labels: Tags): C.World
  {
    var w := Leftover(extra, labels);
    w.(stored := w.stored.(deleting := false, spec := w.stored.spec.(balancerEnabled := true)))
  }

  function ServingPass(sha: TargetPool.Digest, labels: Tags): C.Env
  {
    ClusterPassWith(sha, labels, AllWork, true).(balancerIP := "192.0.2.9")
  }

  lemma LiveIsWhole(extra: Tags, labels: Tags)
    requires Labeling(LeftoverTags(extra), labels)
    ensures Whole(Live(extra, labels), Name)
  {
    var w := Live(extra, labels);
    LeftoverBalancer(extra, labels);
    assert C.ClusterTagsOf(w.stored.spec, Name) == LeftoverTags(extra);
    SameBalancers(Leftover(extra, labels).stored.status, w.stored.status, w.cloud, w.cloud, Name, LeftoverTags(extra));
    hide C.ClusterTagsOf, C.BalancerName, OwnBalancers, Labeling, Covering, Held, NetworkSound, BalancerSound;
    EmptyIsHeld(w.stored.spec, w.stored.status, w.cloud, Name);
  }

  lemma ServingPassWorks(sha: TargetPool.Digest, extra: Tags, created: Tags, labels: Tags)
    requires Labeling(LeftoverTags(extra), labels)
    ensures WorkingPass(Live(extra, created), Name, ServingPass(sha, labels))
  {
    assert C.ClusterTagsOf(Live(extra, created).stored.spec, Name) == LeftoverTags(extra);
    assert |"192.0.2.9"| == 9 && |"192.0.2.7"| == 9;
    hide C.ClusterTagsOf, Labeling, C.BalancerName;
  }

  /** A live cluster with such labels, every call working: ready after a pass that makes
      the label map in the order of its creation, and not after one in the other. */
  lemma {:induction false} IncoherentTagsBlock(sha: TargetPool.Digest, extra: Tags)
    returns (created: Tags, sought: Tags)
    requires !Coherent(LeftoverTags(extra))
    ensures var w := Live(extra, created);
            && Whole(w, Name) && WorkingPass(w, Name, ServingPass(sha, created))
            && WorkingPass(w, Name, ServingPass(sha, sought))
            && C.Reconcile(w, Name, ServingPass(sha, created)).stored.status.ready
            && !C.Reconcile(w, Name, ServingPass(sha, sought)).stored.status.ready
  {
    created, sought := TwoOrders(LeftoverTags(extra));
    LiveIsWhole(extra, created);
    ServingPassWorks(sha, extra, created, created);
    ServingPassWorks(sha, extra, created, sought);
    LeftoverUnseen(extra, created, sought);
    LiveDecided(sha, extra, created, created);
    LiveDecided(sha, extra, created, sought);
    LeftoverSeen(extra, created);
    hide C.Reconcile, Whole, WorkingPass, Labeling, MatchingBalancers, MapContains, Coherent, C.BalancerName;
  }

  lemma LiveDecided(sha: TargetPool.Digest, extra: Tags, created: Tags, labels: Tags)
    requires Whole(Live(extra, created), Name) && WorkingPass(Live(extra, created), Name, ServingPass(sha, labels))
    ensures C.Reconcile(Live(extra, created), Name, ServingPass(sha, labels)).stored.status.ready <==>
            MatchingBalancers(Leftover(extra, created).cloud, labels) != {}
  {
    PassDecides(Live(extra, created), Name, ServingPass(sha, labels));
    hide C.Reconcile, Whole, WorkingPass, MatchingBalancers, Detachable, C.BalancerName;
  }

  lemma LeftoverSeen(extra: Tags, created: Tags)
    ensures MatchingBalancers(Leftover(extra, created).cloud, created) != {}
  {
    hide C.BalancerName;
    assert C.BalancerName(Name) in MatchingBalancers(Leftover(extra, created).cloud, created);
  }

  /** And there are such user labels. */
  lemma SomeTagsAreIncoherent()
    ensures !Coherent(LeftoverTags(map[SlashesToDots(ClusterName) := "c"]))
  {
    ReservedKeyCanCollide();
  }
}
