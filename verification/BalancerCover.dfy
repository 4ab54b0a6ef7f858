/** The recorded load balancer through every pass: what carries the cluster's labels
    is what is recorded, whenever something is recorded. */
module BalancerCover {
  import opened Labels
  import opened CloudModel
  import opened ClusterModel
  import opened ClusterFrames
  import opened ClusterTeardown
  import opened BastionStages
  import ClusterNetwork
  import Conditions
  import TargetPool

  /** No load balancer but the one of this name carries labels of the tags or is recorded. */
  ghost predicate BalancerSound(st: Status, c: CloudState, id: Identity, tags: Tags)
  {
    && OwnBalancers(c, tags) <= {BalancerName(id)} && "" !in c.balancers
    && (|st.balancerID| == 0 || st.balancerID == BalancerName(id))
  }

  lemma NamesApart(id: Identity)
    ensures BalancerName(id) != ""
  {
    assert |BalancerName(id)| > 0;
  }

  lemma EnsuredBalancer(c: CloudState, id: Identity, seed: seq<TargetPool.Target>, labels: Tags,
                        calls: EnsureBalancerCalls, tags: Tags)
    requires OwnBalancers(c, tags) <= {BalancerName(id)} && "" !in c.balancers && Labeling(tags, labels)
    ensures var op := EnsureBalancer(c, BalancerName(id), labels, APIServerPort, seed, calls);
            && OwnBalancers(op.cloud, tags) <= {BalancerName(id)} && "" !in op.cloud.balancers
            && (op.result.Ok? ==> op.result.value == BalancerName(id))
  {
    NamesApart(id);
    CoherentSeesOwn(c, tags, labels);
    hide BalancerName, Carries, MatchingBalancers, Labeling;
  }

  lemma TargetsKeepLabels(c: CloudState, name: string, port: int, targets: seq<TargetPool.Target>,
                          calls: SetTargetsCalls, tags: Tags)
    ensures var c' := SetTargets(c, name, port, targets, calls).cloud;
            OwnBalancers(c', tags) == OwnBalancers(c, tags) && c'.balancers.Keys == c.balancers.Keys
  {
    hide GoodInput, Carries;
  }

  /** The name a call reports, if any. */
  function NameOf(call: BalancerCall): string
  {
    match call
    case BalancerPending(_, name) => name
    case TargetsFailed(_, name) => name
    case BalancerServes(_, name) => name
    case _ => ""
  }

  lemma CallBalancerNames(spec: Spec, c: CloudState, id: Identity, e: Env, tags: Tags)
    requires OwnBalancers(c, tags) <= {BalancerName(id)} && "" !in c.balancers && Labeling(tags, e.balancerLabels)
    ensures var call := CallBalancer(spec, c, id, e);
            && OwnBalancers(call.cloud, tags) <= {BalancerName(id)} && "" !in call.cloud.balancers
            && (|NameOf(call)| == 0 || NameOf(call) == BalancerName(id))
  {
    hide Seed, Desired, EnsureBalancer, SetTargets, OwnBalancers, Labeling;
    var made := EnsureBalancer(c, BalancerName(id), e.balancerLabels, APIServerPort, Seed(id, e), e.balancer);
    EnsuredBalancer(c, id, Seed(id, e), e.balancerLabels, e.balancer, tags);
    if made.result.Ok? {
      TargetsKeepLabels(made.cloud, made.result.value, APIServerPort, Desired(id, e), e.setTargets, tags);
    }
    hide BalancerName;
  }

  lemma AfterBalancerRecords(st: Status, call: BalancerCall, ip: string)
    ensures var b := AfterBalancer(st, call, ip).status.balancerID; b == st.balancerID || b == NameOf(call)
  {
    hide Conditions.IsTrue;
  }

  lemma AfterNetworkKeepsBalancer(spec: Spec, st: Status, call: NetworkCall)
    ensures AfterNetwork(spec, st, call).status.balancerID == st.balancerID
  {
  }

  lemma SameBalancers(st: Status, st': Status, c: CloudState, c': CloudState, id: Identity, tags: Tags)
    requires BalancerSound(st, c, id, tags) && c'.balancers == c.balancers
    requires st'.balancerID == st.balancerID || |st'.balancerID| == 0
    ensures BalancerSound(st', c', id, tags)
  {
    hide BalancerName, Carries;
  }

  /** A normal pass, for the status that was and for the one it computed. */
  lemma NormalBalancerSound(spec: Spec, st: Status, c: CloudState, id: Identity, e: Env, tags: Tags)
    requires BalancerSound(st, c, id, tags) && Labeling(tags, e.balancerLabels)
    ensures var n := Normal(spec, st, c, id, e);
            BalancerSound(st, n.cloud, id, tags) && BalancerSound(n.status, n.cloud, id, tags)
  {
    hide Normal, CredentialStage, CallNetwork, CallBalancer, CallBastion, AfterNetwork, AfterBalancer, AfterBastion;
    hide OwnBalancers, BalancerName, Labeling;
    NormalByStages(spec, st, c, id, e);
    var s1 := AtNetwork(st, c, id, e);
    CredentialStageFrame(st, c, id, e);
    SameBalancers(st, s1.status, c, s1.cloud, id, tags);
    CallNetworkFrame(spec, s1.status, s1.cloud, id, e);
    AfterNetworkKeepsBalancer(spec, s1.status, CallNetwork(spec, s1.status, s1.cloud, id, e));
    AfterNetworkKeeps(spec, s1.status, CallNetwork(spec, s1.status, s1.cloud, id, e));
    var s2 := AtBalancer(spec, st, c, id, e);
    SameBalancers(s1.status, s2.status, s1.cloud, s2.cloud, id, tags);
    CallBalancerNames(spec, s2.cloud, id, e, tags);
    AfterBalancerRecords(s2.status, CallBalancer(spec, s2.cloud, id, e), e.balancerIP);
    ClusterNetwork.AfterBalancerCloud(s2.status, CallBalancer(spec, s2.cloud, id, e), e.balancerIP);
    var s3 := AtBastion(spec, st, c, id, e);
    assert BalancerSound(s3.status, s3.cloud, id, tags);
    CallBastionFrame(spec, s3.status, s3.cloud, id, e);
    AfterBastionKeepsNetwork(s3.status, CallBastion(spec, s3.status, s3.cloud, id, e), e);
    ClusterNetwork.AfterBastionCloud(s3.status, CallBastion(spec, s3.status, s3.cloud, id, e), e);
    SameBalancers(s3.status, Normal(spec, st, c, id, e).status, s3.cloud, Normal(spec, st, c, id, e).cloud, id, tags);
  }

  lemma DropBalancerSound(st: Status, c: CloudState, id: Identity, e: Env, tags: Tags)
    requires BalancerSound(st, c, id, tags)
    ensures var s := DropBalancer(st, c, e);
            s.cloud.balancers.Keys <= c.balancers.Keys &&
            (forall name :: name in s.cloud.balancers ==> s.cloud.balancers[name] == c.balancers[name]) &&
            (s.status.balancerID == st.balancerID || |s.status.balancerID| == 0)
  {
    hide ResolveBalancer, BalancerName, OwnBalancers;
  }

  lemma FewerBalancers(st: Status, st': Status, c: CloudState, c': CloudState, id: Identity, tags: Tags)
    requires BalancerSound(st, c, id, tags) && c'.balancers.Keys <= c.balancers.Keys
    requires forall name :: name in c'.balancers ==> c'.balancers[name].labels == c.balancers[name].labels
    requires st'.balancerID == st.balancerID || |st'.balancerID| == 0
    ensures BalancerSound(st', c', id, tags)
  {
    hide BalancerName, Carries;
    assert OwnBalancers(c', tags) <= OwnBalancers(c, tags);
  }

  lemma DropNetworkKeepsBalancer(spec: Spec, st: Status, c: CloudState, id: Identity, e: Env)
    ensures DropNetwork(spec, st, c, id, e).status.balancerID == st.balancerID
  {
    hide NetworkToDelete, CloudModel.Delete;
  }

  lemma DeletionBalancerSound(spec: Spec, st: Status, c: CloudState, id: Identity, e: Env, tags: Tags)
    requires BalancerSound(st, c, id, tags)
    ensures var s := ClusterModel.Delete(spec, st, c, id, e);
            BalancerSound(st, s.cloud, id, tags) && BalancerSound(s.status, s.cloud, id, tags)
  {
    hide DropBalancer, DropBastion, DropNetwork, BalancerSound, BalancerName;
    var s1 := DropBalancer(st, c, e);
    DropBalancerSound(st, c, id, e, tags);
    FewerBalancers(st, s1.status, c, s1.cloud, id, tags);
    FewerBalancers(st, st, c, s1.cloud, id, tags);
    var s2 := DropBastion(spec, s1.status, s1.cloud, id, e);
    ClusterNetwork.DropBastionFrame(spec, s1.status, s1.cloud, id, e);
    var s3 := DropNetwork(spec, s2.status, s2.cloud, id, e);
    DropNetworkFrame(spec, s2.status, s2.cloud, id, e);
    DropNetworkKeepsBalancer(spec, s2.status, s2.cloud, id, e);
    var s := ClusterModel.Delete(spec, st, c, id, e);
    if s.cloud.balancers == s1.cloud.balancers {
      SameBalancers(st, st, s1.cloud, s.cloud, id, tags);
      if s.status.balancerID == s1.status.balancerID {
        SameBalancers(s1.status, s.status, s1.cloud, s.cloud, id, tags);
      }
    }
    SameBalancers(st, s.status, c, c, id, tags);
  }

  lemma PassBalancerSound(w: World, id: Identity, e: Env, tags: Tags)
    requires BalancerSound(w.stored.status, w.cloud, id, tags) && Labeling(tags, e.balancerLabels)
    ensures var w' := Reconcile(w, id, e); BalancerSound(w'.stored.status, w'.cloud, id, tags)
  {
    hide Normal, ClusterModel.Delete, BalancerSound, OwnBalancers, BalancerName, Labeling;
    var spec, st, st' := w.stored.spec, w.stored.status, Unpaused(w);
    SameBalancers(st, st', w.cloud, w.cloud, id, tags);
    SameBalancers(st, Mark(st, Paused, true, Conditions.IsPaused), w.cloud, w.cloud, id, tags);
    if w.stored.deleting {
      DeletionBalancerSound(spec, st', w.cloud, id, e, tags);
      var s := ClusterModel.Delete(spec, st', w.cloud, id, e);
      SameBalancers(st', st, s.cloud, s.cloud, id, tags);
    } else {
      NormalBalancerSound(spec, st', w.cloud, id, e, tags);
      var n := Normal(spec, st', w.cloud, id, e);
      SameBalancers(st', st, n.cloud, n.cloud, id, tags);
    }
  }
}
