/** Whose load balancers are deleted. A load balancer's ID is its name, which does not
    contain the namespace, and a recorded name is deleted without a look at labels. */
module ClusterBalancer {
  import opened Api
  import opened Labels
  import opened CloudModel
  import opened ClusterModel
  import opened ClusterFrames
  import opened ClusterRuns
  import opened BalancerCover
  import opened BastionStages
  import ClusterNetwork
  import ClusterPool
  import MachineFrames
  import MachineModel
  import TargetPool

  /** A load balancer that carries labels made of the cluster's tags. */
  ghost predicate Own(b: Balancer, tags: Tags) { Carries(b.labels, tags) }

  /** What the record names, if it is there, is the cluster's own. */
  ghost predicate OwnBalancer(st: Status, c: CloudState, tags: Tags)
  {
    |st.balancerID| > 0 && st.balancerID in c.balancers ==> Own(c.balancers[st.balancerID], tags)
  }

  // --------------------------------------------------------------- what a pass deletes

  /** The deletion pass gets as far as the load balancer. */
  predicate ReachesBalancer(w: World, e: Env)
  {
    && !Gone(w.stored) && e.ownersFound && !e.paused && w.stored.deleting
    && e.machinesListed && |e.machines| == 0 && e.client.Built?
  }

  /** Found by labels is found to be its own. */
  lemma ResolvedIsOwn(c: CloudState, recorded: string, labels: Tags, list: Outcome, serviceOff: bool, tags: Tags)
    requires Labeling(tags, labels)
    ensures var r := ResolveBalancer(c, recorded, labels, list, serviceOff);
            r.Ok? && |r.value| > 0 && |recorded| == 0 ==> r.value in c.balancers && Own(c.balancers[r.value], tags)
  {
    var matching := MatchingBalancers(c, labels);
    assert forall x :: x in matching ==> x in c.balancers && Own(c.balancers[x], tags);
    hide MatchingBalancers, Labeling, Carries;
  }

  lemma DropBalancerEffect(st: Status, c: CloudState, e: Env)
    ensures var s := DropBalancer(st, c, e);
            var r := ResolveBalancer(c, st.balancerID, e.balancerLabels, e.balancer.list, e.balancer.serviceOff);
            s.cloud.balancers == if r.Ok? && |r.value| > 0 && !e.deleteBalancer.Rejected? then c.balancers - {r.value}
                                 else c.balancers
  {
    hide ResolveBalancer;
    assert forall name :: name !in c.balancers ==> c.balancers - {name} == c.balancers;
  }

  lemma DeletionDropsBalancer(spec: Spec, st: Status, c: CloudState, id: Identity, e: Env)
    ensures var s := ClusterModel.Delete(spec, st, c, id, e);
            s.cloud.balancers == if e.machinesListed && |e.machines| == 0 && e.client.Built?
                                 then DropBalancer(st, c, e).cloud.balancers else c.balancers
  {
    hide DropBalancer, DropBastion, DropNetwork;
    var s1 := DropBalancer(st, c, e);
    ClusterNetwork.DropBastionFrame(spec, s1.status, s1.cloud, id, e);
    var s2 := DropBastion(spec, s1.status, s1.cloud, id, e);
    ClusterPool.DropNetworkPools(spec, s2.status, s2.cloud, id, e);
  }

  lemma NormalDeletesNone(spec: Spec, st: Status, c: CloudState, id: Identity, e: Env)
    ensures forall name :: name in c.balancers ==>
              name in Normal(spec, st, c, id, e).cloud.balancers &&
              Normal(spec, st, c, id, e).cloud.balancers[name].labels == c.balancers[name].labels
  {
    ClusterPool.NormalBalancers(spec, st, c, id, e);
    CallDeletesNone(spec, AtBalancer(spec, st, c, id, e).cloud, id, e);
    hide Normal, AtBalancer, CallBalancer;
  }

  lemma CallDeletesNone(spec: Spec, c: CloudState, id: Identity, e: Env)
    ensures var c' := CallBalancer(spec, c, id, e).cloud;
            forall name :: name in c.balancers ==>
              name in c'.balancers && c'.balancers[name].labels == c.balancers[name].labels
  {
    hide Seed, Desired, FindBalancer, GoodInput;
  }

  /** The pass removes a load balancer that is not the cluster's own. */
  ghost predicate DeletesForeign(w: World, w': World, tags: Tags)
  {
    exists name :: name in w.cloud.balancers && !Own(w.cloud.balancers[name], tags) && name !in w'.cloud.balancers
  }

  /** A pass deletes a load balancer that does not carry the cluster's labels if and
      only if it is a deletion pass that gets that far, the recorded name is now the
      name of such a load balancer, and the deletion takes effect. */
  lemma {:induction false} DeletesForeignIff(w: World, id: Identity, e: Env)
    requires Labeling(ClusterTagsOf(w.stored.spec, id), e.balancerLabels)
    ensures var tags := ClusterTagsOf(w.stored.spec, id);
            DeletesForeign(w, Reconcile(w, id, e), tags) <==>
            ReachesBalancer(w, e) && !OwnBalancer(w.stored.status, w.cloud, tags) && !e.deleteBalancer.Rejected?
  {
    var spec, st, tags := w.stored.spec, Unpaused(w), ClusterTagsOf(w.stored.spec, id);
    NormalDeletesNone(spec, st, w.cloud, id, e);
    DeletionDropsBalancer(spec, st, w.cloud, id, e);
    DropBalancerEffect(st, w.cloud, e);
    ResolvedIsOwn(w.cloud, st.balancerID, e.balancerLabels, e.balancer.list, e.balancer.serviceOff, tags);
    assert |st.balancerID| > 0 ==>
             ResolveBalancer(w.cloud, st.balancerID, e.balancerLabels, e.balancer.list, e.balancer.serviceOff) ==
             Ok(st.balancerID);
    hide Normal, ClusterModel.Delete, DropBalancer, ResolveBalancer, Own, Mark, Labeling, ClusterTagsOf;
  }

  // -------------------------------------------------------------------- over whole runs

  lemma OwnLabels(labels: Tags, l: Tags, tags: Tags)
    requires Labeling(tags, l) && MapContains(labels, l)
    ensures Carries(labels, tags)
  {
  }

  /** Ensuring ends with a load balancer that carries the labels it was asked for. */
  lemma EnsuredIsOwn(c: CloudState, name: string, port: int, seed: seq<TargetPool.Target>, labels: Tags,
                     calls: EnsureBalancerCalls)
    ensures var op := EnsureBalancer(c, name, labels, port, seed, calls);
            op.result.Ok? ==> op.result.value in op.cloud.balancers &&
                              MapContains(op.cloud.balancers[op.result.value].labels, labels)
  {
    var matching := MatchingBalancers(c, labels);
    assert forall x :: x in matching ==> x in c.balancers && MapContains(c.balancers[x].labels, labels);
    hide MatchingBalancers;
  }

  lemma CallIsOwn(spec: Spec, c: CloudState, id: Identity, e: Env)
    ensures var call := CallBalancer(spec, c, id, e);
            |NameOf(call)| > 0 ==> NameOf(call) in call.cloud.balancers &&
                                   MapContains(call.cloud.balancers[NameOf(call)].labels, e.balancerLabels)
  {
    var made := EnsureBalancer(c, BalancerName(id), e.balancerLabels, APIServerPort, Seed(id, e), e.balancer);
    EnsuredIsOwn(c, BalancerName(id), APIServerPort, Seed(id, e), e.balancerLabels, e.balancer);
    if made.result.Ok? { TargetsKeepOwn(made.cloud, made.result.value, id, e); }
    hide EnsureBalancer, Seed, Desired, CallTargets, MapContains;
  }

  lemma TargetsKeepOwn(c: CloudState, name: string, id: Identity, e: Env)
    requires name in c.balancers
    ensures var call := CallTargets(c, name, id, e);
            && NameOf(call) == name && name in call.cloud.balancers
            && call.cloud.balancers[name].labels == c.balancers[name].labels
  {
    hide Desired, GoodInput;
  }

  /** What a normal pass creates is its own. */
  lemma CallAddsOwn(spec: Spec, c: CloudState, id: Identity, e: Env)
    ensures var c' := CallBalancer(spec, c, id, e).cloud;
            forall name :: name in c'.balancers && name !in c.balancers ==>
              MapContains(c'.balancers[name].labels, e.balancerLabels)
  {
    hide Seed, Desired, FindBalancer, GoodInput;
  }

  lemma NormalOwnBalancer(spec: Spec, st: Status, c: CloudState, id: Identity, e: Env, tags: Tags)
    requires OwnBalancer(st, c, tags) && Labeling(tags, e.balancerLabels)
    ensures var n := Normal(spec, st, c, id, e); OwnBalancer(st, n.cloud, tags) && OwnBalancer(n.status, n.cloud, tags)
  {
    NormalByStages(spec, st, c, id, e);
    ClusterPool.NormalBalancers(spec, st, c, id, e);
    NormalDeletesNone(spec, st, c, id, e);
    CredentialStageFrame(st, c, id, e);
    var s1 := AtNetwork(st, c, id, e);
    AfterNetworkKeepsBalancer(spec, s1.status, CallNetwork(spec, s1.status, s1.cloud, id, e));
    var s2 := AtBalancer(spec, st, c, id, e);
    var call := CallBalancer(spec, s2.cloud, id, e);
    CallIsOwn(spec, s2.cloud, id, e);
    CallAddsOwn(spec, s2.cloud, id, e);
    AfterBalancerRecords(s2.status, call, e.balancerIP);
    var s3 := AtBastion(spec, st, c, id, e);
    AfterBastionKeepsNetwork(s3.status, CallBastion(spec, s3.status, s3.cloud, id, e), e);
    forall name | name in call.cloud.balancers && MapContains(call.cloud.balancers[name].labels, e.balancerLabels)
      ensures Own(call.cloud.balancers[name], tags)
    {
      OwnLabels(call.cloud.balancers[name].labels, e.balancerLabels, tags);
    }
    hide Normal, CredentialStage, CallNetwork, CallBalancer, CallBastion, AfterNetwork, AfterBalancer, AfterBastion;
    hide MapContains, Labeling, Carries;
  }

  lemma DeletionOwnBalancer(spec: Spec, st: Status, c: CloudState, id: Identity, e: Env, tags: Tags)
    requires OwnBalancer(st, c, tags)
    ensures var s := ClusterModel.Delete(spec, st, c, id, e);
            OwnBalancer(st, s.cloud, tags) && OwnBalancer(s.status, s.cloud, tags)
  {
    DeletionDropsBalancer(spec, st, c, id, e);
    DropBalancerEffect(st, c, e);
    DeletionRecords(spec, st, c, id, e);
    hide ClusterModel.Delete, DropBalancer, Own;
  }

  lemma DeletionRecords(spec: Spec, st: Status, c: CloudState, id: Identity, e: Env)
    ensures var s := ClusterModel.Delete(spec, st, c, id, e);
            s.status.balancerID == st.balancerID || |s.status.balancerID| == 0
  {
    hide DropBalancer, DropBastion, DropNetwork;
    var s1 := DropBalancer(st, c, e);
    DropBalancerRecords(st, c, e);
    ClusterNetwork.DropBastionFrame(spec, s1.status, s1.cloud, id, e);
    var s2 := DropBastion(spec, s1.status, s1.cloud, id, e);
    DropNetworkKeepsBalancer(spec, s2.status, s2.cloud, id, e);
  }

  lemma DropBalancerRecords(st: Status, c: CloudState, e: Env)
    ensures var s := DropBalancer(st, c, e); s.status.balancerID == st.balancerID || |s.status.balancerID| == 0
  {
    hide ResolveBalancer;
  }

  lemma PassOwnBalancer(w: World, id: Identity, e: Env, tags: Tags)
    requires OwnBalancer(w.stored.status, w.cloud, tags) && Labeling(tags, e.balancerLabels)
    ensures var w' := Reconcile(w, id, e); OwnBalancer(w'.stored.status, w'.cloud, tags)
  {
    var spec, st := w.stored.spec, Unpaused(w);
    NormalOwnBalancer(spec, st, w.cloud, id, e, tags);
    DeletionOwnBalancer(spec, st, w.cloud, id, e, tags);
    hide Normal, ClusterModel.Delete, Own, Labeling;
  }

  /** Updates keep the cluster's labels, each pass makes its label map of them in any
      map order, and nobody else gives a load balancer of other labels the recorded
      name, as a cluster of the same name in another namespace would. */
  ghost predicate NameKept(w: World, id: Identity, ev: Event)
  {
    var tags := ClusterTagsOf(w.stored.spec, id);
    match ev
    case Reconciled(e) => Labeling(tags, e.balancerLabels)
    case SpecUpdated(o) => o.spec.labels == w.stored.spec.labels
    case Interference(c) =>
      var name := w.stored.status.balancerID;
      name in c.balancers ==>
        || (name in w.cloud.balancers && c.balancers[name].labels == w.cloud.balancers[name].labels)
        || Own(c.balancers[name], tags)
    case _ => true
  }

  ghost predicate OwnNamed(w: World, id: Identity)
  {
    OwnBalancer(w.stored.status, w.cloud, ClusterTagsOf(w.stored.spec, id))
  }

  lemma StepOwnBalancer(w: World, id: Identity, ev: Event)
    requires OwnNamed(w, id) && NameKept(w, id, ev)
    ensures OwnNamed(Next(w, id, ev), id)
  {
    match ev
    case Reconciled(e) =>
      PassOwnBalancer(w, id, e, ClusterTagsOf(w.stored.spec, id));
      ClusterNetwork.PassKeepsSpec(w, id, e);
      hide Reconcile, ClusterTagsOf, OwnBalancer, Labeling;
    case MachineReconciled(m, mid, e) =>
      MachineFrames.MachinePassFrame(MachineModel.World(m, w.cloud, false), mid, e);
      hide MachineModel.Reconcile, ClusterTagsOf, Carries;
    case SpecUpdated(o) =>
      assert ClusterTagsOf(o.spec, id) == ClusterTagsOf(w.stored.spec, id);
      hide ClusterTagsOf, Carries;
    case Interference(_) => hide ClusterTagsOf, Carries;
    case DeletionRequested =>
  }

  /** Over every run in which nobody takes over the recorded name, any failures, lost
      patches and map orders included, no pass deletes a load balancer without the
      cluster's labels. */
  lemma {:induction false} EveryRunDeletesOwnBalancer(w: World, id: Identity, events: seq<Event>, e: Env)
    requires OwnNamed(w, id) && Run(w, id, events, (v, ev) => NameKept(v, id, ev))
    requires Labeling(ClusterTagsOf(After(w, id, events).stored.spec, id), e.balancerLabels)
    ensures var now := After(w, id, events);
            !DeletesForeign(now, Reconcile(now, id, e), ClusterTagsOf(now.stored.spec, id))
  {
    var inv := (v: World) => OwnNamed(v, id);
    var ok := (v, ev) => NameKept(v, id, ev);
    hide Reconcile, NameKept, OwnBalancer, Next, Own, Labeling, ClusterTagsOf, DeletesForeign;
    forall v: World, ev: Event | inv(v) && ok(v, ev) ensures inv(Next(v, id, ev)) { StepOwnBalancer(v, id, ev); }
    Invariance(w, id, events, inv, ok);
    DeletesForeignIff(After(w, id, events), id, e);
  }
}
