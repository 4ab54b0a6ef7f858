/** The cluster's additional labels are part of the bastion's selector, and the webhook
    does not freeze them: what a label change does to a bastion that exists. */
module BastionRelabel {
  import opened Api
  import opened Labels
  import opened CloudModel
  import opened CloudFrames
  import opened CloudValidity
  import opened ClusterModel
  import opened ClusterFrames
  import opened ClusterTeardown
  import opened BastionMaking
  import opened BastionStages
  import opened BastionCover

  function OwnKeys(): set<string> { {ClusterName, ClusterNamespace, ManagedBy, ResourceRole} }

  /** The bastion is still found after a label change exactly when it only drops labels. */
  lemma BastionStillFoundIff(name: string, namespace: string, was: Tags, now: Tags)
    ensures Matches(BastionTags(name, namespace, was), BastionTags(name, namespace, now)) <==>
            OnlyDrops(was, now, OwnKeys())
  {
    BastionTagsAt(name, namespace, was);
    BastionTagsAt(name, namespace, now);
    var o, n := BastionTags(name, namespace, was), BastionTags(name, namespace, now);
    hide BastionTags;
    if Matches(o, n) {
      forall k | k in now && k !in OwnKeys() ensures k in was && was[k] == now[k] {
        assert k in n;
      }
    }
  }

  /** The resource of one kind: recorded, and nothing else carries the new tags. */
  predicate Sole(s: Store, x: Id, was: Tags, now: Tags)
  {
    && x != 0 && x < s.nextID && x in s.items && s.items[x] == was
    && forall y :: y in s.items && y != x ==> !Matches(s.items[y], now)
  }

  lemma SoleTagged(c: CloudState, kind: Kind, x: Id, was: Tags, now: Tags)
    requires Sole(StoreOf(c, kind), x, was, now)
    ensures Tagged(c, kind, now) == if Matches(was, now) then {x} else {}
  {
  }

  predicate MakingWorks(calls: EnsureBastionCalls)
  {
    && calls.group == FindOrCreateCalls(Works, Works) && calls.rules.Works?
    && calls.server == FindOrCreateCalls(Works, Works)
    && calls.attach.Works? && calls.address == FindOrCreateCalls(Works, Works)
    && (calls.unassigned ==> calls.assign.Works? && calls.read.Works?)
  }

  lemma EnsureAfterRelabel(c: CloudState, network: Id, ids: BastionIDs, calls: EnsureBastionCalls, was: Tags, now: Tags)
    requires network != 0 && now != map[] && MakingWorks(calls)
    requires Sole(c.servers, ids.server, was, now) && Sole(c.addresses, ids.address, was, now)
    requires Sole(c.groups, ids.group, was, now)
    ensures var op := EnsureBastion(c, now, network, calls);
            op.result ==
              Ok(if Matches(was, now) then ids else BastionIDs(c.servers.nextID, c.addresses.nextID, c.groups.nextID))
  {
    SoleTagged(c, Servers, ids.server, was, now);
    SoleTagged(c, Addresses, ids.address, was, now);
    SoleTagged(c, Groups, ids.group, was, now);
    EnsureEffect(c, now, network, calls);
    EnsuredBastionIsTheOne(c, now, network, calls);
    hide EnsureBastion, Tagged, Matches, Sole;
    assert Completes(c, now, network, calls);
    var r := EnsureBastion(c, now, network, calls).result.value;
    var s, a, g := Tagged(EnsureBastion(c, now, network, calls).cloud, Servers, now),
                   Tagged(EnsureBastion(c, now, network, calls).cloud, Addresses, now),
                   Tagged(EnsureBastion(c, now, network, calls).cloud, Groups, now);
    assert r.server in s && r.address in a && r.group in g;
  }

  /** Nothing of the store went or changed. */
  predicate Kept(s: Store, s': Store)
  {
    forall x :: x in s.items ==> x in s'.items && s'.items[x] == s.items[x]
  }

  lemma MadeKeeps(c: CloudState, kind: Kind, tags: Tags, calls: FindOrCreateCalls)
    requires Valid(c)
    ensures Kept(StoreOf(c, kind), StoreOf(FindOrCreate(c, kind, tags, calls).cloud, kind))
  {
    hide Find;
  }

  lemma EnsureKeepsAll(c: CloudState, tags: Tags, network: Id, calls: EnsureBastionCalls)
    requires Valid(c)
    ensures var c' := EnsureBastion(c, tags, network, calls).cloud;
            Kept(c.servers, c'.servers) && Kept(c.addresses, c'.addresses) && Kept(c.groups, c'.groups)
  {
    hide FindOrCreate, CreateServerIn, Attach;
    var group := FindOrCreate(c, Groups, tags, calls.group);
    FindOrCreateFrame(c, Groups, tags, calls.group);
    FindOrCreateValid(c, Groups, tags, calls.group);
    MadeKeeps(c, Groups, tags, calls.group);
    if group.result.Ok? {
      var server := CreateServerIn(group.cloud, tags, group.result.value, calls.server);
      ServerMadeKeeps(group.cloud, tags, group.result.value, calls.server);
      CreateServerInFrame(group.cloud, tags, group.result.value, calls.server);
      CreateServerInValid(group.cloud, tags, group.result.value, calls.server);
      if server.result.Ok? {
        var attach := Attach(server.cloud, server.result.value, group.result.value, calls.attach);
        AttachValid(server.cloud, server.result.value, group.result.value, calls.attach);
        AttachFrame(server.cloud, server.result.value, group.result.value, calls.attach);
        FindOrCreateFrame(attach.cloud, Addresses, tags, calls.address);
        MadeKeeps(attach.cloud, Addresses, tags, calls.address);
      }
    }
    hide Valid;
  }

  lemma AttachFrame(c: CloudState, server: Id, group: Id, o: Outcome)
    ensures var c' := Attach(c, server, group, o).cloud; c' == c.(attached := c'.attached)
  {
  }

  lemma ServerMadeKeeps(c: CloudState, tags: Tags, group: Id, calls: FindOrCreateCalls)
    requires Valid(c)
    ensures Kept(c.servers, CreateServerIn(c, tags, group, calls).cloud.servers)
  {
    hide FindOrCreate;
    MadeKeeps(c, Servers, tags, calls);
  }

  /** It is there and the tags do not find it. */
  predicate Orphaned(s: Store, x: Id, tags: Tags)
  {
    x in s.items && !Matches(s.items[x], tags)
  }

  /** After an admitted change of the cluster's labels, a pass whose calls all work
      keeps the recorded bastion exactly when the change only dropped labels;
      otherwise it makes a second one, records that, and the first stays in the cloud
      with nothing recorded and no tags left that find it. */
  lemma {:induction false} SecondBastionIff(w: World, id: Identity, was: Tags, e: Env)
    requires Valid(w.cloud) && TriesBastion(w, id, e) && BastionNetwork(w, id, e) != 0
    requires MakingWorks(e.ensureBastion) && e.finalPatchLands
    requires var now, old_ := BastionTagsOf(w.stored.spec, id), BastionTags(id.name, id.namespace, was);
             var ids := w.stored.status.bastion.ids;
             && Sole(w.cloud.servers, ids.server, old_, now) && Sole(w.cloud.addresses, ids.address, old_, now)
             && Sole(w.cloud.groups, ids.group, old_, now)
    ensures var w' := Reconcile(w, id, e);
            var ids, ids' := w.stored.status.bastion.ids, w'.stored.status.bastion.ids;
            && (ids' == ids <==> OnlyDrops(was, w.stored.spec.labels, OwnKeys()))
            && (!OnlyDrops(was, w.stored.spec.labels, OwnKeys()) ==>
                  && ids'.server != ids.server && ids'.address != ids.address && ids'.group != ids.group
                  && Orphaned(w'.cloud.servers, ids.server, BastionTagsOf(w.stored.spec, id))
                  && Orphaned(w'.cloud.addresses, ids.address, BastionTagsOf(w.stored.spec, id))
                  && Orphaned(w'.cloud.groups, ids.group, BastionTagsOf(w.stored.spec, id)))
  {
    var spec, ids := w.stored.spec, w.stored.status.bastion.ids;
    var a := AtBastion(spec, Unpaused(w), w.cloud, id, e);
    var now, old_ := BastionTagsOf(spec, id), BastionTags(id.name, id.namespace, was);
    RoleTags(spec, id);
    BastionStillFoundIff(id.name, id.namespace, was, spec.labels);
    Reached(w, id, e);
    SameDecision(spec, w.stored.status, a.status, e);
    EnsureCase(spec, a.status, a.cloud, id, e);
    AfterRecords(a.status, CallBastion(spec, a.status, a.cloud, id, e), e);
    EnsureAfterRelabel(a.cloud, BastionNetwork(w, id, e), ids, e.ensureBastion, old_, now);
    EnsureKeepsAll(a.cloud, now, BastionNetwork(w, id, e), e.ensureBastion);
    hide Reconcile, AtBastion, CallBastion, AfterBastion, EnsureBastion, Valid, BastionTags, Matches, OnlyDrops;
    hide KnownAbsent, ComesToEnsure;
    hide MakingWorks;
  }
}
