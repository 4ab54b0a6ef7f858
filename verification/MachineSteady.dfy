/** Reconciling a machine is idempotent: a pass that ends ready is a fixed point. */
module MachineSteady {
  import opened Api
  import opened Labels
  import opened CloudModel
  import opened CloudFrames
  import opened CloudValidity
  import opened Removal
  import opened MachineModel
  import Conditions
  import SteadyState

  /** The calls a settled machine still makes. */
  predicate ReadsWork(e: Env)
  {
    e.get.Works? && (e.cluster.bastionEnabled ==>
      e.nodeSSH.group.find.Works? && e.nodeSSH.rule.Works? && e.nodeSSH.attach.Works?)
  }

  predicate Says(m: StackitMachine, t: ConditionType)
  {
    t in m.conditions && m.conditions[t] == Conditions.Condition(true, Conditions.Available)
  }

  predicate Unpaused(m: StackitMachine)
  {
    Paused in m.conditions && m.conditions[Paused] == Conditions.Condition(false, Conditions.NotPaused)
  }

  /** What a ready machine looks like, and its node's SSH access with it. */
  ghost predicate Settled(m: StackitMachine, c: CloudState, id: Identity, e: Env)
  {
    && m.instanceID != 0 && m.providerID == m.instanceID && m.provisioned && m.ready && m.instanceID in c.servers.items
    && Says(m, BootstrapReady) && Says(m, CredentialsReady) && Says(m, InstanceReady) && Says(m, Ready)
    && Unpaused(m)
    && (e.cluster.bastionEnabled ==>
          e.cluster.bastionGroup != 0 && id.nodeTags != map[] &&
          exists g :: Tagged(c, Groups, id.nodeTags) == {g} && (m.instanceID, g) in c.attached)
  }

  lemma SaidAgain(m: StackitMachine, t: ConditionType)
    requires Says(m, t)
    ensures Mark(m, t, true, Conditions.Available) == m
  {
    assert m.conditions[t := Conditions.Condition(true, Conditions.Available)] == m.conditions;
  }

  lemma AccessAgain(c: CloudState, nodeTags: Tags, server: Id, g: Id, e: Env)
    requires ReadsWork(e) && e.cluster.bastionEnabled && e.cluster.bastionGroup != 0 && server != 0 && nodeTags != map[]
    requires Tagged(c, Groups, nodeTags) == {g} && (server, g) in c.attached
    ensures NodeAccess(c, nodeTags, server, e) == Op(c, Ok(()))
  {
    SteadyState.FoundAgain(c, Groups, nodeTags, g, e.nodeSSH.group);
    assert c.attached + {(server, g)} == c.attached;
    assert Attach(c, server, g, e.nodeSSH.attach) == Op(c, Ok(()));
    hide FindOrCreate, Attach, Tagged;
  }

  lemma SettledIsFixed(m: StackitMachine, c: CloudState, id: Identity, e: Env)
    requires ReadsWork(e) && ReachesServer(e) && e.serverUp && Settled(m, c, id, e)
    ensures Normal(m, c, id, e) == Pass(m, c)
  {
    SaidAgain(m, BootstrapReady);
    SaidAgain(m, CredentialsReady);
    SaidAgain(m, InstanceReady);
    SaidAgain(m, Ready);
    assert WithInstance(m, m.instanceID) == m;
    if e.cluster.bastionEnabled {
      var g :| Tagged(c, Groups, id.nodeTags) == {g} && (m.instanceID, g) in c.attached;
      AccessAgain(c, id.nodeTags, m.instanceID, g, e);
    }
    assert NodeAccess(c, id.nodeTags, m.instanceID, e) == Op(c, Ok(()));
    assert EnsureServer(m, c, id.tags, e) == (c, Server(m.instanceID));
    assert WithCredentials(m) == m;
    assert IsReady(m) == m;
    hide NodeAccess, EnsureServer, WithCredentials, IsReady, Settled, ReachesServer;
  }

  lemma AccessSettles(c: CloudState, nodeTags: Tags, server: Id, e: Env)
    requires ReadsWork(e) && e.cluster.bastionEnabled && server in c.servers.items
    requires NodeAccess(c, nodeTags, server, e).result.Ok?
    ensures e.cluster.bastionGroup != 0 && nodeTags != map[]
    ensures var c' := NodeAccess(c, nodeTags, server, e).cloud;
            && c'.servers == c.servers
            && exists g :: Tagged(c', Groups, nodeTags) == {g} && (server, g) in c'.attached
  {
    hide FindOrCreate, Tagged;
    var group := FindOrCreate(c, Groups, nodeTags, e.nodeSSH.group);
    FindOrCreateUnique(c, Groups, nodeTags, e.nodeSSH.group);
    FindOrCreateFrame(c, Groups, nodeTags, e.nodeSSH.group);
    var g := group.result.value;
    var a := Attach(group.cloud, server, g, e.nodeSSH.attach);
    TaggedSame(group.cloud, a.cloud, Groups, nodeTags);
    assert (server, g) in a.cloud.attached;
  }

  lemma EnsuredThere(m: StackitMachine, c: CloudState, tags: Tags, e: Env)
    requires ValidStore(c.servers) && tags != map[]
    ensures var (c', r) := EnsureServer(m, c, tags, e); r.Server? ==> r.id != 0 && r.id in c'.servers.items
  {
    FoundIsTheOne(c, Servers, tags, e.find);
    FoundIsTheOne(c, Servers, tags, e.create.find);
    assert forall x :: x in Tagged(c, Servers, tags) ==> x in c.servers.items;
    hide Tagged, Only;
  }

  lemma ReadyMarks(m: StackitMachine, server: Id)
    requires Unpaused(m)
    ensures var r := IsReady(WithInstance(WithCredentials(m), server));
            && Says(r, BootstrapReady) && Says(r, CredentialsReady) && Says(r, InstanceReady) && Says(r, Ready)
            && Unpaused(r)
            && r.instanceID == server && r.providerID == server && r.provisioned && r.ready
            && r.finalizer == m.finalizer && r.deleting == m.deleting
  {
  }

  /** Every other exit of a normal pass marks Ready False. */
  lemma ReadyMeansEnd(m: StackitMachine, c: CloudState, id: Identity, e: Env)
    requires Says(Normal(m, c, id, e).machine, Ready)
    ensures ReachesServer(e) && e.serverUp
    ensures var (c1, r) := EnsureServer(WithCredentials(m), c, id.tags, e);
            r.Server? && NodeAccess(c1, id.nodeTags, r.id, e).result.Ok?
  {
    hide EnsureServer, NodeAccess, ReachesServer, WithCredentials;
  }

  lemma EndsSettled(m: StackitMachine, c: CloudState, id: Identity, e: Env)
    requires ReadsWork(e) && ValidStore(c.servers) && id.tags != map[] && Unpaused(m)
    requires Says(Normal(m, c, id, e).machine, Ready)
    ensures var p := Normal(m, c, id, e);
            Settled(p.machine, p.cloud, id, e) && p.machine.finalizer == m.finalizer && p.machine.deleting == m.deleting
  {
    ReadyMeansEnd(m, c, id, e);
    var (c1, r) := EnsureServer(WithCredentials(m), c, id.tags, e);
    EnsuredThere(WithCredentials(m), c, id.tags, e);
    ReadyMarks(m, r.id);
    if e.cluster.bastionEnabled { AccessSettles(c1, id.nodeTags, r.id, e); }
    assert !e.cluster.bastionEnabled ==> NodeAccess(c1, id.nodeTags, r.id, e).cloud == c1;
    hide NodeAccess, EnsureServer, WithCredentials, IsReady, WithInstance, Tagged;
  }

  /** A pass of a live machine that ends with Ready True and lands its patch, run
      again with the same observations and working calls, changes nothing at all. */
  lemma {:induction false} ReadyIsFixedPoint(w: World, id: Identity, e: Env)
    requires ValidStore(w.cloud.servers) && id.tags != map[] && ReadsWork(e) && e.ownersFound && !e.paused
    requires !w.stored.deleting && e.finalizerPatchLands && e.finalPatchLands
    requires Says(Reconcile(w, id, e).stored, Ready)
    ensures var once := Reconcile(w, id, e); Reconcile(once, id, e) == once
  {
    hide Normal, ReachesServer, ReadsWork;
    var held := Mark(w.stored, Paused, false, Conditions.NotPaused).(finalizer := true);
    var p := Normal(held, w.cloud, id, e);
    assert Reconcile(w, id, e) == World(p.machine, p.cloud, w.abandoned);
    EndsSettled(held, w.cloud, id, e);
    ReadyMeansEnd(held, w.cloud, id, e);
    SettledIsFixed(p.machine, p.cloud, id, e);
    assert Mark(p.machine, Paused, false, Conditions.NotPaused) == p.machine by {
      assert p.machine.conditions[Paused := Conditions.Condition(false, Conditions.NotPaused)] == p.machine.conditions;
    }
    assert p.machine.(finalizer := true) == p.machine;
  }
}
