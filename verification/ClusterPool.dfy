/** The API server target pool over whole runs. */
module ClusterPool {
  import opened Api
  import opened Labels
  import opened CloudModel
  import opened CloudFrames
  import opened ClusterModel
  import opened ClusterFrames
  import opened ClusterRuns
  import opened BastionStages
  import AddressPlan
  import ClusterNetwork
  import Conditions
  import MachineFrames
  import MachineModel
  import Ordering
  import TargetPool

  /** Never empty, and no address twice. */
  predicate Usable(pool: seq<TargetPool.Target>)
  {
    pool != [] && forall i, j :: 0 <= i < j < |pool| ==> pool[i].ip != pool[j].ip
  }

  ghost predicate PoolsUsable(c: CloudState)
  {
    forall name :: name in c.balancers ==> Usable(c.balancers[name].pool)
  }

  lemma DesiredIsUsable(id: Identity, e: Env)
    ensures Desired(id, e) != [] ==> Usable(Desired(id, e))
  {
    var ms := TargetPool.EligibleOf(e.machines, id.clusterName);
    TargetPool.PoolMembers(ms);
    var owners := TargetPool.Owners(Ordering.Sort(ms, TargetPool.ByName));
    assert TargetPool.OwnersOf(ms, owners);
    hide TargetPool.Owners, TargetPool.IP, TargetPool.TargetName;
    forall i, j | 0 <= i < j < |owners| ensures Desired(id, e)[i].ip != Desired(id, e)[j].ip {
      assert TargetPool.IP(owners[i]) != TargetPool.IP(owners[j]);
    }
  }

  lemma SeedIsUsable(id: Identity, e: Env)
    ensures Usable(Seed(id, e))
  {
    hide Desired;
    DesiredIsUsable(id, e);
  }

  /** Creating keeps every existing pool; a new one starts with the seed. */
  lemma EnsureBalancerPools(c: CloudState, name: string, labels: Tags, seed: seq<TargetPool.Target>,
                            calls: EnsureBalancerCalls)
    requires seed != []
    ensures var op := EnsureBalancer(c, name, labels, APIServerPort, seed, calls);
            || op.cloud.balancers == c.balancers
            || (name !in c.balancers &&
                op.cloud.balancers == c.balancers[name := Balancer(labels, APIServerPort, seed)])
  {
    hide FindBalancer;
  }

  lemma CallTargetsPools(c: CloudState, name: string, id: Identity, e: Env)
    ensures var call := CallTargets(c, name, id, e);
            || call.cloud.balancers == c.balancers
            || (Desired(id, e) != [] && name in c.balancers &&
                call.cloud.balancers ==
                c.balancers[name := c.balancers[name].(port := APIServerPort, pool := Desired(id, e))])
    ensures var call := CallTargets(c, name, id, e);
            call.BalancerServes? && Desired(id, e) != [] ==>
              name in call.cloud.balancers && call.cloud.balancers[name].port == APIServerPort &&
              multiset(call.cloud.balancers[name].pool) == multiset(Desired(id, e))
  {
    hide Desired, GoodInput;
  }

  /** What a pass may do to the pool of a load balancer that exists already: nothing,
      or exactly the desired targets, of which there is then at least one. */
  ghost predicate KeptOrDesired(c: CloudState, c': CloudState, desired: seq<TargetPool.Target>)
  {
    forall name :: name in c.balancers && name in c'.balancers ==>
      c'.balancers[name].pool == c.balancers[name].pool ||
      (desired != [] && c'.balancers[name].pool == desired)
  }

  lemma CallBalancerPools(spec: Spec, c: CloudState, id: Identity, e: Env)
    ensures KeptOrDesired(c, CallBalancer(spec, c, id, e).cloud, Desired(id, e))
    ensures PoolsUsable(c) ==> PoolsUsable(CallBalancer(spec, c, id, e).cloud)
  {
    hide EnsureBalancer, CallTargets, Desired, Seed, Usable;
    SeedIsUsable(id, e);
    assert Seed(id, e) != [] by { SeedNotEmpty(id, e); }
    EnsureBalancerPools(c, BalancerName(id), e.balancerLabels, Seed(id, e), e.balancer);
    var made := EnsureBalancer(c, BalancerName(id), e.balancerLabels, APIServerPort, Seed(id, e), e.balancer);
    DesiredIsUsable(id, e);
    if made.result.Ok? { CallTargetsPools(made.cloud, made.result.value, id, e); }
  }

  lemma SeedNotEmpty(id: Identity, e: Env)
    ensures Seed(id, e) != []
  {
    hide Desired;
  }

  lemma NormalBalancers(spec: Spec, st: Status, c: CloudState, id: Identity, e: Env)
    ensures var s2 := AtBalancer(spec, st, c, id, e);
            var n := Normal(spec, st, c, id, e);
            && s2.cloud.balancers == c.balancers
            && n.cloud.balancers == if s2.go then CallBalancer(spec, s2.cloud, id, e).cloud.balancers else c.balancers
  {
    hide Normal, CredentialStage, CallNetwork, CallBalancer, CallBastion, AfterBalancer, AfterBastion;
    NormalByStages(spec, st, c, id, e);
    CredentialStageFrame(st, c, id, e);
    var s1 := AtNetwork(st, c, id, e);
    CallNetworkFrame(spec, s1.status, s1.cloud, id, e);
    var s2 := AtBalancer(spec, st, c, id, e);
    ClusterNetwork.AfterBalancerCloud(s2.status, CallBalancer(spec, s2.cloud, id, e), e.balancerIP);
    var s3 := AtBastion(spec, st, c, id, e);
    CallBastionFrame(spec, s3.status, s3.cloud, id, e);
    ClusterNetwork.AfterBastionCloud(s3.status, CallBastion(spec, s3.status, s3.cloud, id, e), e);
  }

  lemma DeletionBalancers(spec: Spec, st: Status, c: CloudState, id: Identity, e: Env)
    ensures var c' := ClusterModel.Delete(spec, st, c, id, e).cloud;
            forall name :: name in c'.balancers ==> name in c.balancers && c'.balancers[name] == c.balancers[name]
  {
    hide DropBalancer, DropBastion, DropNetwork;
    DropBalancerPools(st, c, e);
    var s1 := DropBalancer(st, c, e);
    ClusterNetwork.DropBastionFrame(spec, s1.status, s1.cloud, id, e);
    var s2 := DropBastion(spec, s1.status, s1.cloud, id, e);
    DropNetworkPools(spec, s2.status, s2.cloud, id, e);
  }

  lemma DropBalancerPools(st: Status, c: CloudState, e: Env)
    ensures var c' := DropBalancer(st, c, e).cloud;
            forall name :: name in c'.balancers ==> name in c.balancers && c'.balancers[name] == c.balancers[name]
  {
    hide ResolveBalancer;
  }

  lemma DropNetworkPools(spec: Spec, st: Status, c: CloudState, id: Identity, e: Env)
    ensures DropNetwork(spec, st, c, id, e).cloud.balancers == c.balancers
  {
    hide NetworkToDelete, CloudModel.Delete;
    var target := NetworkToDelete(spec, st, c, id, e);
    if target.Ok? { DeleteFrame(c, Networks, target.value, e.deleteNetwork); }
  }

  lemma PassPools(w: World, id: Identity, e: Env)
    ensures PoolsUsable(w.cloud) ==> PoolsUsable(Reconcile(w, id, e).cloud)
    ensures KeptOrDesired(w.cloud, Reconcile(w, id, e).cloud, if w.stored.deleting then [] else Desired(id, e))
  {
    hide Normal, ClusterModel.Delete, CallBalancer, Desired, Usable, AtBalancer;
    var spec, st := w.stored.spec, Mark(w.stored.status, Paused, false, Conditions.NotPaused);
    NormalBalancers(spec, st, w.cloud, id, e);
    var s2 := AtBalancer(spec, st, w.cloud, id, e);
    CallBalancerPools(spec, s2.cloud, id, e);
    DeletionBalancers(spec, st, w.cloud, id, e);
  }

  /** Others may delete load balancers and create or change them, as long as what they
      leave is usable. */
  ghost predicate HandsOff(w: World, ev: Event)
  {
    ev.Interference? ==>
      forall name :: name in ev.cloud.balancers ==>
        (name in w.cloud.balancers && ev.cloud.balancers[name].pool == w.cloud.balancers[name].pool) ||
        Usable(ev.cloud.balancers[name].pool)
  }

  lemma StepKeepsPools(w: World, id: Identity, ev: Event)
    requires PoolsUsable(w.cloud) && HandsOff(w, ev)
    ensures PoolsUsable(Next(w, id, ev).cloud)
  {
    hide Reconcile, MachineModel.Reconcile, Usable;
    match ev
    case Reconciled(e) => PassPools(w, id, e);
    case MachineReconciled(m, mid, e) => MachineFrames.MachinePassFrame(MachineModel.World(m, w.cloud, false), mid, e);
    case SpecUpdated(_) =>
    case Interference(_) =>
    case DeletionRequested =>
  }

  /** In every state of every run every pool is non-empty with distinct addresses, and
      the next pass, whatever it meets, leaves each existing pool as it is or replaces
      it by the desired targets; without an eligible address it never replaces it. */
  lemma {:induction false} EveryRunKeepsPools(w: World, id: Identity, events: seq<Event>, e: Env)
    requires PoolsUsable(w.cloud) && Run(w, id, events, HandsOff)
    ensures var now := After(w, id, events);
            && PoolsUsable(now.cloud)
            && KeptOrDesired(now.cloud, Reconcile(now, id, e).cloud, if now.stored.deleting then [] else Desired(id, e))
  {
    hide Reconcile, Usable, Desired;
    var inv := (v: World) => PoolsUsable(v.cloud);
    forall v: World, ev: Event | inv(v) && HandsOff(v, ev) ensures inv(Next(v, id, ev)) {
      StepKeepsPools(v, id, ev);
    }
    Invariance(w, id, events, inv, HandsOff);
    PassPools(After(w, id, events), id, e);
  }

  /** The load balancer of this name serves exactly the targets, as a multiset. */
  predicate Serves(c: CloudState, name: string, targets: seq<TargetPool.Target>)
  {
    && name in c.balancers && c.balancers[name].port == APIServerPort
    && multiset(c.balancers[name].pool) == multiset(targets)
  }

  lemma StageServesDesired(spec: Spec, st: Status, c: CloudState, id: Identity, e: Env)
    ensures var s := AtBastion(spec, st, c, id, e);
            spec.balancerEnabled && s.go && Desired(id, e) != [] ==>
              Serves(s.cloud, s.status.balancerID, Desired(id, e))
  {
    hide CredentialStage, CallNetwork, AfterNetwork, EnsureBalancer, CallTargets, Desired, Seed, Conditions.IsTrue;
    var s2 := AtBalancer(spec, st, c, id, e);
    var made := EnsureBalancer(s2.cloud, BalancerName(id), e.balancerLabels, APIServerPort, Seed(id, e), e.balancer);
    if made.result.Ok? {
      CallTargetsPools(made.cloud, made.result.value, id, e);
      CallTargetsName(made.cloud, made.result.value, id, e);
    }
    assert AtBastion(spec, st, c, id, e).go ==>
             AtBastion(spec, st, c, id, e) ==
               AfterBalancer(s2.status, CallBalancer(spec, s2.cloud, id, e), e.balancerIP);
  }

  /** A pass that gets beyond the target update with at least one desired target leaves
      exactly the desired multiset in a pool, whatever comes after, and records that
      pool's load balancer if its patch lands. */
  lemma {:induction false} ServedPoolIsDesired(w: World, id: Identity, e: Env)
    requires ReachesBastion(w, id, e) && w.stored.spec.balancerEnabled && Desired(id, e) != []
    ensures var w' := Reconcile(w, id, e);
            exists name ::
              && Serves(w'.cloud, name, Desired(id, e))
              && TargetPool.FrontsControlPlane(w'.cloud.balancers[name].pool, e.machines, id.clusterName, e.sha)
              && (e.finalPatchLands ==> name == w'.stored.status.balancerID)
  {
    hide Normal, AtBastion, CallBastion, AfterBastion, Desired;
    var spec, st := w.stored.spec, Unpaused(w);
    var a := AtBastion(spec, st, w.cloud, id, e);
    StageServesDesired(spec, st, w.cloud, id, e);
    NormalByStages(spec, st, w.cloud, id, e);
    CallBastionFrame(spec, a.status, a.cloud, id, e);
    AfterBastionKeepsNetwork(a.status, CallBastion(spec, a.status, a.cloud, id, e), e);
    ClusterNetwork.AfterBastionCloud(a.status, CallBastion(spec, a.status, a.cloud, id, e), e);
    var c' := Reconcile(w, id, e).cloud;
    assert Serves(c', a.status.balancerID, Desired(id, e));
    DesiredFronts(id, e);
    SameMembersFront(Desired(id, e), c'.balancers[a.status.balancerID].pool, e.machines, id.clusterName, e.sha);
  }

  lemma DesiredFronts(id: Identity, e: Env)
    ensures TargetPool.FrontsControlPlane(Desired(id, e), e.machines, id.clusterName, e.sha)
  {
    TargetPool.DesiredFrontsControlPlane(e.machines, id.clusterName, e.sha);
    hide TargetPool.FrontsControlPlane;
  }

  lemma SameMembersFront(a: seq<TargetPool.Target>, b: seq<TargetPool.Target>, ms: seq<TargetPool.Machine>,
                         cluster: string, sha: TargetPool.Digest)
    requires multiset(a) == multiset(b) && TargetPool.FrontsControlPlane(a, ms, cluster, sha)
    ensures TargetPool.FrontsControlPlane(b, ms, cluster, sha)
  {
    hide TargetPool.Fronted, TargetPool.Least;
    assert forall t :: t in a <==> t in multiset(a);
    assert forall t :: t in b <==> t in multiset(b);
  }

  /** A load balancer that a pass creates has the cluster's name and labels, and starts
      with the control plane behind it or, if there is none yet, with one placeholder
      inside the network. */
  lemma {:induction false} NewPoolIsSeeded(w: World, id: Identity, e: Env, name: string)
    requires name !in w.cloud.balancers && name in Reconcile(w, id, e).cloud.balancers
    ensures var b := Reconcile(w, id, e).cloud.balancers[name];
            && name == id.name + "-apiserver" && b.labels == e.balancerLabels && b.port == 6443
            && (if exists m, ip :: m in e.machines && TargetPool.Fronted(m, id.clusterName, ip)
                then TargetPool.FrontsControlPlane(b.pool, e.machines, id.clusterName, e.sha)
                else exists ip :: b.pool == [TargetPool.Target("capi-bootstrap-placeholder", AddressPlan.Dotted(ip))] &&
                                  AddressPlan.IsPlaceholder(e.prefixes, ip))
  {
    hide Normal, ClusterModel.Delete, CallBalancer, Desired, AtBalancer, Seed;
    var spec, st := w.stored.spec, Unpaused(w);
    NormalBalancers(spec, st, w.cloud, id, e);
    DeletionBalancers(spec, st, w.cloud, id, e);
    var s2 := AtBalancer(spec, st, w.cloud, id, e);
    CallMakes(spec, s2.cloud, id, e, name);
    SeedMeans(id, e);
    hide TargetPool.FrontsControlPlane, TargetPool.Fronted, AddressPlan.IsPlaceholder, AddressPlan.Dotted, BalancerName;
  }

  lemma CallMakes(spec: Spec, c: CloudState, id: Identity, e: Env, name: string)
    requires name !in c.balancers && name in CallBalancer(spec, c, id, e).cloud.balancers
    ensures name == BalancerName(id)
    ensures CallBalancer(spec, c, id, e).cloud.balancers[name] == Balancer(e.balancerLabels, APIServerPort, Seed(id, e))
  {
    assert Desired(id, e) != [] ==> Seed(id, e) == Desired(id, e);
    hide EnsureBalancer, CallTargets, Desired, Seed;
    SeedNotEmpty(id, e);
    EnsureBalancerPools(c, BalancerName(id), e.balancerLabels, Seed(id, e), e.balancer);
    var made := EnsureBalancer(c, BalancerName(id), e.balancerLabels, APIServerPort, Seed(id, e), e.balancer);
    if made.result.Ok? { CallTargetsPools(made.cloud, made.result.value, id, e); }
  }

  lemma NotEmptyFronts(pool: seq<TargetPool.Target>, ms: seq<TargetPool.Machine>, cluster: string,
                       sha: TargetPool.Digest)
    requires TargetPool.FrontsControlPlane(pool, ms, cluster, sha)
    ensures pool != [] <==> exists m, ip :: m in ms && TargetPool.Fronted(m, cluster, ip)
  {
    hide TargetPool.Fronted, TargetPool.Least;
    if pool != [] {
      assert pool[0] in pool;
      var m :| m in ms && TargetPool.Fronted(m, cluster, pool[0].ip);
    }
  }

  lemma SeedMeans(id: Identity, e: Env)
    ensures if exists m, ip :: m in e.machines && TargetPool.Fronted(m, id.clusterName, ip)
            then TargetPool.FrontsControlPlane(Seed(id, e), e.machines, id.clusterName, e.sha)
            else exists ip ::
                   Seed(id, e) == [TargetPool.Target("capi-bootstrap-placeholder", AddressPlan.Dotted(ip))] &&
                   AddressPlan.IsPlaceholder(e.prefixes, ip)
  {
    DesiredFronts(id, e);
    NotEmptyFronts(Desired(id, e), e.machines, id.clusterName, e.sha);
    AddressPlan.PlaceholderMeaning(e.prefixes);
    hide Desired, TargetPool.FrontsControlPlane, TargetPool.Fronted, AddressPlan.Dotted, AddressPlan.Placeholder;
    hide AddressPlan.Roomy, AddressPlan.Network;
    assert AddressPlan.IsPlaceholder(e.prefixes, AddressPlan.Placeholder(e.prefixes));
  }

  lemma CallTargetsName(c: CloudState, name: string, id: Identity, e: Env)
    ensures var call := CallTargets(c, name, id, e); (call.BalancerServes? || call.TargetsFailed?) && call.name == name
  {
    hide Desired, SetTargets;
  }

  /** The update succeeds exactly for a name, a port and at least one target, all of them
      named and addressed, and a load balancer that has them or takes them. */
  lemma UpdateSucceedsIff(c: CloudState, name: string, port: int, targets: seq<TargetPool.Target>,
                          calls: SetTargetsCalls)
    ensures SetTargets(c, name, port, targets, calls).result.Ok? <==>
              && name != "" && port > 0 && targets != [] && (forall t :: t in targets ==> t.name != "" && t.ip != "")
              && calls.get.Works? && name in c.balancers
              && (calls.update.Works? || (c.balancers[name].port == port &&
                                          multiset(c.balancers[name].pool) == multiset(targets)))
  {
    assert forall s: string :: |s| == 0 <==> s == "";
  }

  /** A load balancer is made exactly when the lookup finds none, or the project has no load
      balancer service, the name is free and the creation is not rejected; otherwise
      nothing changes. */
  lemma BalancerMadeIff(c: CloudState, name: string, labels: Tags, port: int, seed: seq<TargetPool.Target>,
                        calls: EnsureBalancerCalls)
    ensures var op := EnsureBalancer(c, name, labels, port, seed, calls);
            if && labels != map[] && (calls.serviceOff || (calls.list.Works? && MatchingBalancers(c, labels) == {})
                                      || (!calls.list.Works? && calls.list.error == NotFound))
               && !calls.create.Rejected? && name !in c.balancers
            then op.cloud.balancers.Keys == c.balancers.Keys + {name} && (op.result.Ok? <==> calls.create.Works?)
            else op.cloud == c
  {
    hide MatchingBalancers;
  }

  /** A new load balancer never starts with an empty pool, whatever it is given. */
  lemma NewPoolIsNotEmpty(c: CloudState, name: string, labels: Tags, port: int, seed: seq<TargetPool.Target>,
                          calls: EnsureBalancerCalls)
    requires name !in c.balancers && name in EnsureBalancer(c, name, labels, port, seed, calls).cloud.balancers
    ensures EnsureBalancer(c, name, labels, port, seed, calls).cloud.balancers[name].pool ==
            if seed != [] then seed else [TargetPool.Target("capi-bootstrap-placeholder", "10.0.0.1")]
  {
    hide FindBalancer;
  }

  /** A repeated update never writes: the comparison by sorting sees the pool it set. */
  lemma SecondUpdateIsFree(c: CloudState, name: string, port: int, targets: seq<TargetPool.Target>,
                           calls: SetTargetsCalls, again: SetTargetsCalls)
    requires SetTargets(c, name, port, targets, calls).result.Ok?
    ensures var c' := SetTargets(c, name, port, targets, calls).cloud;
            && name in c'.balancers && c'.balancers[name].port == port
            && multiset(c'.balancers[name].pool) == multiset(targets)
            && SetTargets(c', name, port, targets, again).cloud == c'
            && (again.get.Works? ==> SetTargets(c', name, port, targets, again).result.Ok?)
            && (c' != c ==> c.balancers[name].port != port || multiset(c.balancers[name].pool) != multiset(targets))
  {
    hide GoodInput;
  }
}
