/** Which stage of a cluster pass touches what. */
module ClusterFrames {
  import opened Api
  import opened CloudModel
  import opened CloudFrames
  import opened ClusterModel
  import Conditions
  import Zones

  lemma CallBalancerFrame(spec: Spec, c: CloudState, id: Identity, e: Env)
    ensures var c' := CallBalancer(spec, c, id, e).cloud; c' == c.(balancers := c'.balancers)
  {
    hide Seed, Desired, FindBalancer, GoodInput;
  }

  lemma RemoveBastionFrame(spec: Spec, st: Status, c: CloudState, id: Identity, e: Env, tolerated: set<ErrorClass>)
    ensures BastionPartOnly(c, RemoveBastion(spec, st, c, id, e, tolerated).cloud)
  {
    hide DeleteNodeSSH, DeleteBastion;
    DeleteNodeSSHFrame(c, NodeTagsOf(spec, id), e.deleteNodeSSH);
    var node := DeleteNodeSSH(c, NodeTagsOf(spec, id), e.deleteNodeSSH);
    DeleteBastionFrame(node.cloud, BastionTagsOf(spec, id), st.bastion.ids, e.deleteBastion);
  }

  lemma CallBastionFrame(spec: Spec, st: Status, c: CloudState, id: Identity, e: Env)
    ensures BastionPartOnly(c, CallBastion(spec, st, c, id, e).cloud)
  {
    hide RemoveBastion, EnsureBastion, KnownAbsent, NeedsRecreate;
    RemoveBastionFrame(spec, st, c, id, e, {});
    RemoveBastionFrame(spec, st, c, id, e, {NotFound});
    EnsureBastionFrame(c, BastionTagsOf(spec, id), NetworkID(spec, st), e.ensureBastion);
  }

  lemma CallNetworkFrame(spec: Spec, st: Status, c: CloudState, id: Identity, e: Env)
    ensures var c' := CallNetwork(spec, st, c, id, e).cloud; c' == c.(networks := c'.networks)
  {
    hide FindOrCreate, Get;
    FindOrCreateFrame(c, Networks, ClusterTagsOf(spec, id), e.createNetwork);
  }

  lemma AfterBalancerKeepsNetwork(st: Status, call: BalancerCall, ip: string)
    ensures AfterBalancer(st, call, ip).status.network == st.network
  {
    hide Conditions.IsTrue;
  }

  lemma AfterBastionKeepsNetwork(st: Status, call: BastionCall, e: Env)
    ensures AfterBastion(st, call, e).status.network == st.network
    ensures AfterBastion(st, call, e).status.balancerID == st.balancerID
  {
    hide KnownAbsent;
  }

  /** The credential stage only concerns conditions and zones. */
  lemma CredentialStageFrame(st: Status, c: CloudState, id: Identity, e: Env)
    ensures var s := CredentialStage(st, c, id, e);
            s.cloud == c && s.status.network == st.network && s.status.bastion == st.bastion &&
            s.status.balancerID == st.balancerID
  {
    hide Zones.RegionZones, Zones.Publish;
  }

  lemma CallNetworkReadsNetwork(spec: Spec, st: Status, st': Status, c: CloudState, id: Identity, e: Env)
    requires st.network == st'.network
    ensures CallNetwork(spec, st, c, id, e) == CallNetwork(spec, st', c, id, e)
  {
    hide FindOrCreate, Get;
  }

  /** The states in which the network, balancer and bastion stages start, if reached. */
  ghost function AtNetwork(st: Status, c: CloudState, id: Identity, e: Env): Stage { CredentialStage(st, c, id, e) }

  ghost function AtBalancer(spec: Spec, st: Status, c: CloudState, id: Identity, e: Env): Stage
  {
    var s := AtNetwork(st, c, id, e);
    if s.go then NetworkStage(spec, s.status, s.cloud, id, e) else s
  }

  ghost function AtBastion(spec: Spec, st: Status, c: CloudState, id: Identity, e: Env): Stage
  {
    var s := AtBalancer(spec, st, c, id, e);
    if s.go then BalancerStage(spec, s.status, s.cloud, id, e) else s
  }

  lemma NormalByStages(spec: Spec, st: Status, c: CloudState, id: Identity, e: Env)
    ensures var s := AtBastion(spec, st, c, id, e);
            if !s.go then Normal(spec, st, c, id, e) == s
            else
              var b := BastionStage(spec, s.status, s.cloud, id, e);
              var n := Normal(spec, st, c, id, e);
              n.cloud == b.cloud && n.go == b.go &&
              n.status ==
              if b.go then Mark(b.status.(ready := true, provisioned := true), Ready, true, Conditions.Available)
              else b.status
  {
    hide CredentialStage, CallNetwork, CallBalancer, CallBastion, AfterNetwork, AfterBalancer, AfterBastion;
  }
}
