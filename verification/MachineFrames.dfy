/** What a machine pass does to the shared cloud beyond its own server. */
module MachineFrames {
  import opened Api
  import opened Labels
  import opened CloudModel
  import opened CloudFrames
  import opened MachineModel
  import Conditions

  lemma EnsureServerFrame(m: StackitMachine, c: CloudState, tags: Tags, e: Env)
    ensures var c' := EnsureServer(m, c, tags, e).0; c' == c.(servers := c'.servers)
  {
    hide Find, Get, FindOrCreate;
    FindOrCreateFrame(c, Servers, tags, e.create);
  }

  lemma NodeAccessFrame(c: CloudState, nodeTags: Tags, server: Id, e: Env)
    ensures var c' := NodeAccess(c, nodeTags, server, e).cloud;
            c' == c.(groups := c'.groups, attached := c'.attached)
    ensures !e.cluster.bastionEnabled || e.cluster.bastionGroup == 0 ==> NodeAccess(c, nodeTags, server, e).cloud == c
  {
    hide EnsureNodeSSH;
    EnsureNodeSSHFrame(c, nodeTags, server, e.cluster.bastionGroup, e.nodeSSH);
  }

  lemma FinishFrame(m: StackitMachine, c: CloudState, server: Ensured, id: Identity, e: Env)
    ensures Finish(m, c, server, id, e).cloud == c ||
            (server.Server? && Finish(m, c, server, id, e).cloud == NodeAccess(c, id.nodeTags, server.id, e).cloud)
  {
    hide NodeAccess, Mark, NotReady;
  }

  /** Networks, addresses and load balancers are none of a machine's business, and
      without a bastion group neither are security groups. */
  lemma NormalFrame(m: StackitMachine, c: CloudState, id: Identity, e: Env)
    ensures var c' := Normal(m, c, id, e).cloud;
            c' == c.(servers := c'.servers, groups := c'.groups, attached := c'.attached)
    ensures !e.cluster.bastionEnabled || e.cluster.bastionGroup == 0 ==> Normal(m, c, id, e).cloud.groups == c.groups
  {
    hide EnsureServer, Finish, StopsEarly, NodeAccess, WithCredentials;
    var (c1, server) := EnsureServer(WithCredentials(m), c, id.tags, e);
    EnsureServerFrame(WithCredentials(m), c, id.tags, e);
    FinishFrame(WithCredentials(m), c1, server, id, e);
    if server.Server? { NodeAccessFrame(c1, id.nodeTags, server.id, e); }
  }

  lemma DeletePassFrame(m: StackitMachine, c: CloudState, id: Identity, e: Env)
    ensures var c' := MachineModel.Delete(m, c, id, e).cloud;
            c' == c.(servers := c'.servers, attached := c'.attached)
  {
    hide ResolveID, CloudModel.Delete, Mark;
    var server := ResolveID(c, Servers, m.instanceID, id.tags, e.find);
    if server.Ok? { DeleteFrame(c, Servers, server.value, e.delete); }
  }

  lemma MachinePassFrame(w: World, id: Identity, e: Env)
    ensures var c' := Reconcile(w, id, e).cloud;
            c' == w.cloud.(servers := c'.servers, groups := c'.groups, attached := c'.attached)
    ensures !e.cluster.bastionEnabled || e.cluster.bastionGroup == 0 ==>
            Reconcile(w, id, e).cloud.groups == w.cloud.groups
  {
    hide Normal, MachineModel.Delete;
    var m := Mark(w.stored, Paused, false, Conditions.NotPaused);
    NormalFrame(m.(finalizer := true), w.cloud, id, e);
    DeletePassFrame(m, w.cloud, id, e);
  }
}
