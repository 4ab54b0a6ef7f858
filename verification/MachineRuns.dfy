/** Safety of a StackitMachine over every run: passes with any failures and lost
    patches, interference by others on the shared cloud, and deletion requests. */
module MachineRuns {
  import opened Api
  import opened Labels
  import opened CloudModel
  import opened MachineModel
  import opened Removal
  import Conditions

  /** The servers that carry the machine's tags. */
  function Own(w: World, id: Identity): set<Id>
  {
    Tagged(w.cloud, Servers, id.tags)
  }

  ghost predicate Safe(w: World, id: Identity)
  {
    && ValidStore(w.cloud.servers)
    // one server at most, and never behind an object that nobody will clean up
    && AtMostOne(Own(w, id))
    && (Own(w, id) != {} ==> w.stored.finalizer || w.abandoned)
    // a recorded instance is the only one there can be
    && (w.stored.instanceID != 0 ==> w.stored.provisioned && Own(w, id) <= {w.stored.instanceID})
    && Consistent(w.stored)
    && (w.abandoned ==> Gone(w.stored))
  }

  /** Listings and deletions that fail do not fail with "not found". */
  predicate HonestAbsence(e: Env)
  {
    Truthful(e.find) && Truthful(e.create.find) && Truthful(e.delete)
  }

  datatype Event = Reconciled(env: Env) | Interference(cloud: CloudState) | DeletionRequested

  /** Others may delete any server out of band and create servers that do not carry
      this machine's tags. */
  ghost predicate Admissible(w: World, id: Identity, ev: Event)
  {
    match ev
    case Reconciled(e) => HonestAbsence(e)
    case Interference(c) => ValidStore(c.servers) && Tagged(c, Servers, id.tags) <= Own(w, id)
    case DeletionRequested => true
  }

  ghost function Next(w: World, id: Identity, ev: Event): World
  {
    match ev
    case Reconciled(e) => Reconcile(w, id, e)
    case Interference(c) => w.(cloud := c)
    case DeletionRequested => w.(stored := w.stored.(deleting := true))
  }

  ghost function After(w: World, id: Identity, events: seq<Event>): World
  {
    if events == [] then w else Next(After(w, id, events[..|events| - 1]), id, events[|events| - 1])
  }

  ghost predicate Run(w: World, id: Identity, events: seq<Event>)
  {
    forall i :: 0 <= i < |events| ==> Admissible(After(w, id, events[..i]), id, events[i])
  }

  // ------------------------------------------------------- effects of single steps

  lemma CreateTags(c: CloudState, tags: Tags, o: Outcome)
    requires ValidStore(c.servers)
    ensures var op := Create(c, Servers, tags, o);
            && ValidStore(op.cloud.servers)
            && Tagged(op.cloud, Servers, tags) ==
               (if o.Rejected? then Tagged(c, Servers, tags) else Tagged(c, Servers, tags) + {c.servers.nextID})
            && (op.result.Ok? ==> op.result.value == c.servers.nextID && !o.Rejected?)
  {
    assert Matches(tags, tags);
  }

  /** EnsureServer creates exactly when both listings say nothing is there. */
  predicate Creates(m: StackitMachine, e: Env)
  {
    && !m.provisioned && m.instanceID == 0 && NetworkID(e) != 0
    && !e.create.create.Rejected?
  }

  lemma EnsureServerEffect(m: StackitMachine, c: CloudState, tags: Tags, e: Env)
    requires tags != map[] && ValidStore(c.servers)
    requires m.instanceID != 0 ==> m.provisioned
    ensures var (c', r) := EnsureServer(m, c, tags, e);
            var created := Creates(m, e) && Find(c, Servers, tags, e.find) == Err(NotFound) &&
                           Find(c, Servers, tags, e.create.find) == Err(NotFound);
            && ValidStore(c'.servers)
            && Tagged(c', Servers, tags) ==
               (if created then Tagged(c, Servers, tags) + {c.servers.nextID} else Tagged(c, Servers, tags))
            && (r.Server? ==> r.id != 0 && (r.id == m.instanceID || r.id in Tagged(c', Servers, tags)))
  {
    CreateTags(c, tags, e.create.create);
    FoundIsTheOne(c, Servers, tags, e.find);
    FoundIsTheOne(c, Servers, tags, e.create.find);
  }

  lemma NodeAccessKeepsServers(c: CloudState, nodeTags: Tags, server: Id, e: Env)
    ensures NodeAccess(c, nodeTags, server, e).cloud.servers == c.servers
  {
  }

  lemma FinishServers(m: StackitMachine, c: CloudState, server: Ensured, id: Identity, e: Env)
    ensures var p := Finish(m, c, server, id, e);
            p.cloud.servers == c.servers &&
            p.machine.instanceID == if server.Server? then server.id else m.instanceID
  {
    if server.Server? { NodeAccessKeepsServers(c, id.nodeTags, server.id, e); }
  }

  /** A normal pass touches the machine's servers only through EnsureServer. */
  lemma NormalServers(m: StackitMachine, c: CloudState, id: Identity, e: Env)
    requires id.tags != map[] && ValidStore(c.servers)
    requires m.instanceID != 0 ==> m.provisioned
    ensures var p := Normal(m, c, id, e);
            var own, own' := Tagged(c, Servers, id.tags), Tagged(p.cloud, Servers, id.tags);
            var created := ReachesServer(e) && Creates(m, e) &&
                           Find(c, Servers, id.tags, e.find) == Err(NotFound) &&
                           Find(c, Servers, id.tags, e.create.find) == Err(NotFound);
            && ValidStore(p.cloud.servers)
            && own' == (if created then own + {c.servers.nextID} else own)
            && (p.machine.instanceID == m.instanceID || p.machine.instanceID in own')
  {
    if ReachesServer(e) {
      var m1 := WithCredentials(m);
      EnsureServerEffect(m1, c, id.tags, e);
      var (c1, server) := EnsureServer(m1, c, id.tags, e);
      FinishServers(m1, c1, server, id, e);
    }
  }

  /** The Ready condition never says more than status.ready. */
  ghost predicate Consistent(m: StackitMachine)
  {
    Conditions.IsTrue(m.conditions, Ready) ==> m.ready
  }

  ghost predicate SameLife(m: StackitMachine, m': StackitMachine)
  {
    && m'.finalizer == m.finalizer && m'.deleting == m.deleting
    && (m.provisioned ==> m'.provisioned)
    && ((m.instanceID != 0 ==> m.provisioned) ==> (m'.instanceID != 0 ==> m'.provisioned))
    && (Consistent(m) ==> Consistent(m'))
  }

  lemma FinishObject(m: StackitMachine, c: CloudState, server: Ensured, id: Identity, e: Env)
    ensures SameLife(m, Finish(m, c, server, id, e).machine)
  {
  }

  lemma NormalObject(m: StackitMachine, c: CloudState, id: Identity, e: Env)
    ensures SameLife(m, Normal(m, c, id, e).machine)
  {
    if ReachesServer(e) {
      var (c1, server) := EnsureServer(WithCredentials(m), c, id.tags, e);
      FinishObject(WithCredentials(m), c1, server, id, e);
    }
  }

  /** A deletion pass removes the server it resolved and no other. */
  lemma DeleteServers(m: StackitMachine, c: CloudState, id: Identity, e: Env)
    requires id.tags != map[] && ValidStore(c.servers)
    ensures var p := MachineModel.Delete(m, c, id, e);
            var own, own' := Tagged(c, Servers, id.tags), Tagged(p.cloud, Servers, id.tags);
            var target := ResolveID(c, Servers, m.instanceID, id.tags, e.find);
            var kept := !e.client.Built? || target.Err? || e.delete.Rejected?;
            && ValidStore(p.cloud.servers)
            && p.cloud.servers.items == (if kept then c.servers.items else c.servers.items - {target.value})
            && own' == if kept then own else own - {target.value}
  {
    if e.client.Built? {
      var target := ResolveID(c, Servers, m.instanceID, id.tags, e.find);
      if target.Ok? && target.value != 0 {
        var items := CloudModel.Delete(c, Servers, target.value, e.delete).cloud.servers.items;
        assert items == if e.delete.Rejected? then c.servers.items else c.servers.items - {target.value};
      }
      assert c.servers.items - {0} == c.servers.items;
    }
  }

  lemma DeleteObject(m: StackitMachine, c: CloudState, id: Identity, e: Env)
    ensures var p := MachineModel.Delete(m, c, id, e);
            var target := ResolveID(c, Servers, m.instanceID, id.tags, e.find);
            && p.machine.deleting == m.deleting && p.machine.provisioned == m.provisioned
            && (p.machine.instanceID == m.instanceID || (p.machine.instanceID == 0 && !p.machine.finalizer))
            && (Consistent(m) ==> Consistent(p.machine))
            && (m.finalizer && !p.machine.finalizer <==>
                  m.finalizer && (e.client.SecretGone? ||
                  (e.client.Built? && target.Ok? &&
                   (target.value == 0 || DeleteIfThere(c, Servers, target.value, e.delete).result.Ok?))))
  {
  }

  // -------------------------------------------------------------- the run theorems

  lemma {:induction false} PassIsSafe(w: World, id: Identity, e: Env)
    requires id.tags != map[] && Safe(w, id) && HonestAbsence(e)
    ensures Safe(Reconcile(w, id, e), id)
  {
    var m := Mark(w.stored, Paused, false, Conditions.NotPaused);
    FoundIsTheOne(w.cloud, Servers, id.tags, e.find);
    FoundIsTheOne(w.cloud, Servers, id.tags, e.create.find);
    if m.deleting {
      DeleteServers(m, w.cloud, id, e);
      DeleteObject(m, w.cloud, id, e);
    } else {
      NormalServers(m.(finalizer := true), w.cloud, id, e);
      NormalObject(m.(finalizer := true), w.cloud, id, e);
    }
  }

  /** Every state of every run is safe: at most one server carries the machine's
      tags, it is always covered by a persisted finalizer (unless the Secret-gone
      exit was taken), and a recorded instance ID names the only server. */
  lemma {:induction false} EveryRunIsSafe(w: World, id: Identity, events: seq<Event>)
    requires id.tags != map[] && Safe(w, id) && Run(w, id, events)
    ensures Safe(After(w, id, events), id)
  {
    if events != [] {
      var before, last := events[..|events| - 1], events[|events| - 1];
      forall i | 0 <= i < |before| ensures Admissible(After(w, id, before[..i]), id, before[i]) {
        assert before[..i] == events[..i];
      }
      EveryRunIsSafe(w, id, before);
      assert Admissible(After(w, id, before), id, last);
      if last.Reconciled? { PassIsSafe(After(w, id, before), id, last.env); }
    }
  }

  /** A new object whose tags nothing carries is where such runs start. */
  lemma FreshIsSafe(w: World, id: Identity)
    requires ValidStore(w.cloud.servers) && Own(w, id) == {} && w.stored.instanceID == 0 && !w.abandoned
    requires !Conditions.IsTrue(w.stored.conditions, Ready)
    ensures Safe(w, id)
  {
  }

  /** Once Provisioned is persisted it stays, and no pass creates a server for the
      machine again, whatever fails and whatever the listings claim. */
  lemma {:induction false} ProvisionedOnce(w: World, id: Identity, events: seq<Event>)
    requires id.tags != map[] && ValidStore(w.cloud.servers) && w.stored.provisioned
    requires forall i :: 0 <= i < |events| ==> events[i].Interference? ==>
               Admissible(After(w, id, events[..i]), id, events[i])
    ensures After(w, id, events).stored.provisioned && ValidStore(After(w, id, events).cloud.servers)
    ensures Own(After(w, id, events), id) <= Own(w, id)
  {
    if events != [] {
      var before, last := events[..|events| - 1], events[|events| - 1];
      forall i | 0 <= i < |before| && before[i].Interference?
        ensures Admissible(After(w, id, before[..i]), id, before[i])
      {
        assert before[..i] == events[..i] && events[i].Interference?;
      }
      ProvisionedOnce(w, id, before);
      var now := After(w, id, before);
      assert last.Interference? ==> Admissible(now, id, last);
      if last.Reconciled? {
        var m := Mark(now.stored, Paused, false, Conditions.NotPaused);
        DeleteServers(m, now.cloud, id, last.env);
        DeleteObject(m, now.cloud, id, last.env);
        NormalServers(m.(finalizer := true), now.cloud, id, last.env);
        NormalObject(m.(finalizer := true), now.cloud, id, last.env);
      }
    }
  }

  // ------------------------------------------- where the assumption is needed, exactly

  /** The pass gets as far as creating: every check of reconcileNormal lets it through. */
  predicate ReachesCreate(w: World, e: Env)
  {
    && !Gone(w.stored) && e.ownersFound && !e.paused && !w.stored.deleting
    && (w.stored.finalizer || e.finalizerPatchLands)
    && ReachesServer(e) && Creates(w.stored, e)
  }

  /** From a safe state a pass produces a second server exactly when one exists
      already and both listings that should have seen it answered "not found". */
  lemma {:induction false} DuplicateIffListingsDenyIt(w: World, id: Identity, e: Env)
    requires id.tags != map[] && Safe(w, id)
    ensures !AtMostOne(Own(Reconcile(w, id, e), id)) <==>
            && Own(w, id) != {} && ReachesCreate(w, e)
            && !e.find.Works? && e.find.error == NotFound
            && !e.create.find.Works? && e.create.find.error == NotFound
  {
    var m := Mark(w.stored, Paused, false, Conditions.NotPaused);
    FoundIsTheOne(w.cloud, Servers, id.tags, e.find);
    FoundIsTheOne(w.cloud, Servers, id.tags, e.create.find);
    DeleteServers(m, w.cloud, id, e);
    DeleteObject(m, w.cloud, id, e);
    NormalServers(m.(finalizer := true), w.cloud, id, e);
    NormalObject(m.(finalizer := true), w.cloud, id, e);
    var own, own' := Own(w, id), Own(Reconcile(w, id, e), id);
    if own != {} && own' == own + {w.cloud.servers.nextID} {
      var x :| x in own;
      assert x in own' && w.cloud.servers.nextID in own' && x != w.cloud.servers.nextID;
    }
  }

  /** From a safe state, the finalizer goes while a server stays exactly in these
      cases: the Secret is gone, the only server is unrecorded and the listing
      denies it, or the deletion of a live server is answered "not found". */
  lemma {:induction false} LeftBehindIff(w: World, id: Identity, e: Env)
    requires id.tags != map[] && Safe(w, id)
    requires w.stored.finalizer && w.stored.deleting && e.ownersFound && !e.paused && e.finalPatchLands
    ensures var w' := Reconcile(w, id, e);
            Gone(w'.stored) && Own(w', id) != {} <==>
            && Own(w, id) != {}
            && (|| e.client.SecretGone?
                || (e.client.Built? && w.stored.instanceID == 0 && !e.find.Works? && e.find.error == NotFound)
                || (e.client.Built? && (w.stored.instanceID != 0 || e.find.Works?) &&
                    e.delete.Rejected? && e.delete.error == NotFound))
  {
    var m := Mark(w.stored, Paused, false, Conditions.NotPaused);
    FoundIsTheOne(w.cloud, Servers, id.tags, e.find);
    DeleteServers(m, w.cloud, id, e);
    DeleteObject(m, w.cloud, id, e);
    var own := Own(w, id);
    if own != {} {
      var x :| x in own;
      assert own == {x};
      if m.instanceID == 0 && e.find.Works? { assert Find(w.cloud, Servers, id.tags, e.find) == Ok(x); }
    }
  }

  /** No leak and no blockage: from any safe state, whatever status survived, a
      deletion pass in which every call works removes the finalizer and the server. */
  lemma CleanDeletionFinishes(w: World, id: Identity, e: Env)
    requires id.tags != map[] && Safe(w, id)
    requires w.stored.deleting && w.stored.finalizer && e.ownersFound && !e.paused && e.finalPatchLands
    requires e.client.Built? && e.find.Works? && e.delete.Works?
    ensures Gone(Reconcile(w, id, e).stored) && Own(Reconcile(w, id, e), id) == {}
  {
    var m := Mark(w.stored, Paused, false, Conditions.NotPaused);
    FoundIsTheOne(w.cloud, Servers, id.tags, e.find);
    DeleteServers(m, w.cloud, id, e);
    DeleteObject(m, w.cloud, id, e);
  }

  /** From any safe state of a live machine that was never provisioned, a pass in
      which every call works ends with exactly one server, recorded. */
  lemma CleanPassConverges(w: World, id: Identity, e: Env)
    requires id.tags != map[] && Safe(w, id) && !w.stored.deleting && !w.stored.provisioned
    requires e.ownersFound && !e.paused && e.finalizerPatchLands && e.finalPatchLands && ReachesServer(e)
    requires NetworkID(e) != 0 && e.find.Works? && e.create.find.Works? && e.create.create.Works?
    ensures var w' := Reconcile(w, id, e);
            && w'.stored.provisioned && w'.stored.instanceID != 0 && w'.stored.providerID == w'.stored.instanceID
            && Own(w', id) == {w'.stored.instanceID} && w'.stored.finalizer
  {
    var m := Mark(w.stored, Paused, false, Conditions.NotPaused).(finalizer := true);
    FoundIsTheOne(w.cloud, Servers, id.tags, e.find);
    FoundIsTheOne(w.cloud, Servers, id.tags, e.create.find);
    NormalServers(m, w.cloud, id, e);
    NormalObject(m, w.cloud, id, e);
    EnsureServerEffect(WithCredentials(m), w.cloud, id.tags, e);
  }
}
