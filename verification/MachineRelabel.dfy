/** Labels are part of the machine's selector, and the webhook freezes them only once
    an instance is recorded: what a label change in between does. */
module MachineRelabel {
  import opened Api
  import opened Labels
  import opened CloudModel
  import opened MachineModel
  import opened MachineRuns
  import opened Removal
  import Conditions

  function ReservedKeys(): set<string> { {ClusterName, ClusterNamespace, MachineName, MachineUID, ManagedBy} }

  /** The same machine's server is still found after a label change exactly when the
      change only drops labels. */
  lemma StillFoundIff(name: string, namespace: string, m: string, uid: string, was: Tags, now: Tags)
    ensures Matches(MachineTags(name, namespace, m, uid, was), MachineTags(name, namespace, m, uid, now)) <==>
            OnlyDrops(was, now, ReservedKeys())
  {
    KeysDiffer();
    var reserved := ReservedForMachine(name, namespace, m, uid);
    assert reserved.Keys == ReservedKeys();
    var o, n := MachineTags(name, namespace, m, uid, was), MachineTags(name, namespace, m, uid, now);
    assert forall k :: k in reserved ==> o[k] == reserved[k] && n[k] == reserved[k];
    if Matches(o, n) {
      forall k | k in now && k !in ReservedKeys() ensures k in was && was[k] == now[k] { assert k in n; }
    }
  }

  /** The servers that name the machine's UID. */
  function OfMachine(items: map<Id, Tags>, uid: string): set<Id>
  {
    set s | s in items && MachineUID in items[s] && items[s][MachineUID] == uid
  }

  /** A server was created and the pass lost its patch; then the labels changed. The
      next pass, with honest listings, creates a second server for the same machine
      UID exactly when it gets that far and the change did more than drop labels. */
  lemma {:induction false} SecondServerIff(w: World, name: string, namespace: string, m: string, uid: string,
                                           was: Tags, now: Tags, nodeTags: Tags, server: Id, e: Env)
    requires ValidStore(w.cloud.servers) && e.find.Works? && e.create.find.Works?
    requires OfMachine(w.cloud.servers.items, uid) == {server}
    requires server in w.cloud.servers.items &&
             w.cloud.servers.items[server] == MachineTags(name, namespace, m, uid, was)
    requires w.stored.instanceID == 0 && !w.stored.deleting
    ensures var next := Reconcile(w, Identity(MachineTags(name, namespace, m, uid, now), nodeTags), e);
            !AtMostOne(OfMachine(next.cloud.servers.items, uid)) <==>
              ReachesCreate(w, e) && !OnlyDrops(was, now, ReservedKeys())
  {
    var items, tags := w.cloud.servers.items, MachineTags(name, namespace, m, uid, now);
    var id := Identity(tags, nodeTags);
    var held := Mark(w.stored, Paused, false, Conditions.NotPaused).(finalizer := true);
    TagsNameMachine(name, namespace, m, uid, now);
    StillFoundIff(name, namespace, m, uid, was, now);
    OnlyOwnFound(w.cloud, server, tags, uid);
    OneMoreIff(held, w.cloud, id, e);
    AddedOne(items, server, w.cloud.servers.nextID, tags, uid);
    hide Normal, Matches, MachineTags, OnlyDrops, OfMachine, Tagged;
  }

  /** The deletion side: with the ID lost and the labels changed, a deletion pass whose
      calls all work removes the finalizer, and leaves the server behind exactly when
      the change did more than drop labels. */
  lemma {:induction false} LeftBehindAfterRelabelIff(w: World, name: string, namespace: string, m: string, uid: string,
                                                     was: Tags, now: Tags, nodeTags: Tags, server: Id, e: Env)
    requires ValidStore(w.cloud.servers) && OfMachine(w.cloud.servers.items, uid) == {server}
    requires server in w.cloud.servers.items &&
             w.cloud.servers.items[server] == MachineTags(name, namespace, m, uid, was)
    requires w.stored.instanceID == 0 && w.stored.deleting && w.stored.finalizer
    requires e.ownersFound && !e.paused && e.finalPatchLands && e.client.Built? && e.find.Works? && e.delete.Works?
    ensures var next := Reconcile(w, Identity(MachineTags(name, namespace, m, uid, now), nodeTags), e);
            Gone(next.stored) && (server in next.cloud.servers.items <==> !OnlyDrops(was, now, ReservedKeys()))
  {
    var tags := MachineTags(name, namespace, m, uid, now);
    var id := Identity(tags, nodeTags);
    var held := Mark(w.stored, Paused, false, Conditions.NotPaused);
    TagsNameMachine(name, namespace, m, uid, now);
    StillFoundIff(name, namespace, m, uid, was, now);
    OnlyOwnFound(w.cloud, server, tags, uid);
    FoundIsTheOne(w.cloud, Servers, tags, e.find);
    DeleteServers(held, w.cloud, id, e);
    DeleteObject(held, w.cloud, id, e);
    assert AtMostOne(Tagged(w.cloud, Servers, tags)) by {
      forall x | x in Tagged(w.cloud, Servers, tags) ensures x == server {
        assert x in OfMachine(w.cloud.servers.items, uid);
      }
    }
    if Matches(w.cloud.servers.items[server], tags) {
      assert server in Tagged(w.cloud, Servers, tags);
    }
    assert CloudModel.Delete(w.cloud, Servers, server, e.delete).result.Ok?;
    hide MachineModel.Delete, Normal, Matches, MachineTags, OnlyDrops, OfMachine, Tagged, CloudModel.Delete;
  }

  lemma TagsNameMachine(name: string, namespace: string, m: string, uid: string, labels: Tags)
    ensures var tags := MachineTags(name, namespace, m, uid, labels);
            tags != map[] && MachineUID in tags && tags[MachineUID] == uid
  {
    KeysDiffer();
    assert MachineUID in MachineTags(name, namespace, m, uid, labels);
  }

  /** No other machine's server can be found by mistake. */
  lemma OnlyOwnFound(c: CloudState, server: Id, tags: Tags, uid: string)
    requires OfMachine(c.servers.items, uid) == {server} && server in c.servers.items
    requires MachineUID in tags && tags[MachineUID] == uid
    ensures Tagged(c, Servers, tags) == {} <==> !Matches(c.servers.items[server], tags)
  {
    forall s | s in Tagged(c, Servers, tags) ensures s == server { assert s in OfMachine(c.servers.items, uid); }
    assert Matches(c.servers.items[server], tags) ==> server in Tagged(c, Servers, tags);
  }

  lemma AddedOne(items: map<Id, Tags>, server: Id, next: Id, tags: Tags, uid: string)
    requires OfMachine(items, uid) == {server} && next !in items && MachineUID in tags && tags[MachineUID] == uid
    ensures AtMostOne(OfMachine(items, uid)) && !AtMostOne(OfMachine(items[next := tags], uid))
  {
    assert server in OfMachine(items, uid);
    assert server in OfMachine(items[next := tags], uid) && next in OfMachine(items[next := tags], uid);
  }

  /** The servers after a normal pass: one more exactly when one is created. */
  lemma OneMoreIff(m: StackitMachine, c: CloudState, id: Identity, e: Env)
    requires ValidStore(c.servers) && id.tags != map[] && e.find.Works? && e.create.find.Works? && m.instanceID == 0
    ensures var items' := Normal(m, c, id, e).cloud.servers.items;
            items' == if ReachesServer(e) && Creates(m, e) && Tagged(c, Servers, id.tags) == {}
                      then c.servers.items[c.servers.nextID := id.tags] else c.servers.items
  {
    if ReachesServer(e) {
      var m1 := WithCredentials(m);
      var (c1, server) := EnsureServer(m1, c, id.tags, e);
      FinishServers(m1, c1, server, id, e);
      hide Finish, Tagged;
    }
  }
}
