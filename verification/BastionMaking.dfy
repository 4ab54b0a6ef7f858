/** EnsureBastion step by step: exactly which resources it makes, for every cloud and
    every outcome of every call, and when it goes through. */
module BastionMaking {
  import opened Api
  import opened Labels
  import opened CloudModel
  import opened CloudFrames
  import opened CloudValidity
  import opened Removal

  /** A find-or-create ends with an ID: one is there, or one is created and reported. */
  ghost predicate Passes(tagged: set<Id>, calls: FindOrCreateCalls)
  {
    calls.find.Works? && AtMostOne(tagged) && (tagged != {} || calls.create.Works?)
  }

  /** It adds a resource: none is there and the creation is not rejected. */
  predicate Makes(tagged: set<Id>, calls: FindOrCreateCalls)
  {
    calls.find.Works? && tagged == {} && !calls.create.Rejected?
  }

  predicate GroupMade(c: CloudState, tags: Tags, network: Id, calls: EnsureBastionCalls)
  {
    network != 0 && Makes(Tagged(c, Groups, tags), calls.group)
  }

  ghost predicate AtServer(c: CloudState, tags: Tags, network: Id, calls: EnsureBastionCalls)
  {
    network != 0 && Passes(Tagged(c, Groups, tags), calls.group) && calls.rules.Works?
  }

  ghost predicate ServerMade(c: CloudState, tags: Tags, network: Id, calls: EnsureBastionCalls)
  {
    AtServer(c, tags, network, calls) && Makes(Tagged(c, Servers, tags), calls.server)
  }

  ghost predicate AtAddress(c: CloudState, tags: Tags, network: Id, calls: EnsureBastionCalls)
  {
    && AtServer(c, tags, network, calls) && Passes(Tagged(c, Servers, tags), calls.server)
    && (calls.attach.Works? || calls.attach.error in {Conflict, InvalidInput, NotFound})
  }

  ghost predicate AddressMade(c: CloudState, tags: Tags, network: Id, calls: EnsureBastionCalls)
  {
    AtAddress(c, tags, network, calls) && Makes(Tagged(c, Addresses, tags), calls.address)
  }

  /** EnsureBastion goes through. */
  ghost predicate Completes(c: CloudState, tags: Tags, network: Id, calls: EnsureBastionCalls)
  {
    && AtAddress(c, tags, network, calls) && Passes(Tagged(c, Addresses, tags), calls.address)
    && (calls.unassigned ==> (calls.assign.Works? || calls.assign.error == Conflict) && calls.read.Works?)
  }

  lemma FindOrCreateEffect(c: CloudState, kind: Kind, tags: Tags, calls: FindOrCreateCalls)
    requires tags != map[] && Truthful(calls.find)
    ensures var op := FindOrCreate(c, kind, tags, calls);
            && (op.result.Ok? <==> Passes(Tagged(c, kind, tags), calls))
            && Tagged(op.cloud, kind, tags) ==
               if Makes(Tagged(c, kind, tags), calls) then {StoreOf(c, kind).nextID} else Tagged(c, kind, tags)
  {
    FoundIsTheOne(c, kind, tags, calls.find);
    if Find(c, kind, tags, calls.find) == Err(NotFound) {
      assert Matches(tags, tags);
      var op := Create(c, kind, tags, calls.create);
      assert Tagged(op.cloud, kind, tags) == if calls.create.Rejected? then {} else {StoreOf(c, kind).nextID};
    }
  }

  lemma CreateServerInEffect(c: CloudState, tags: Tags, group: Id, calls: FindOrCreateCalls)
    requires tags != map[] && Truthful(calls.find)
    ensures var op := CreateServerIn(c, tags, group, calls);
            && (op.result.Ok? <==> Passes(Tagged(c, Servers, tags), calls))
            && Tagged(op.cloud, Servers, tags) ==
               if Makes(Tagged(c, Servers, tags), calls) then {c.servers.nextID} else Tagged(c, Servers, tags)
  {
    FindOrCreateEffect(c, Servers, tags, calls);
    var op := FindOrCreate(c, Servers, tags, calls);
    TaggedSame(op.cloud, CreateServerIn(c, tags, group, calls).cloud, Servers, tags);
    hide FindOrCreate, Passes, Makes, Tagged;
  }

  function OneIf(made: bool, next: Id, otherwise: set<Id>): set<Id> { if made then {next} else otherwise }

  /** What EnsureBastion leaves of each kind, and when it reports success. */
  lemma {:induction false} EnsureEffect(c: CloudState, tags: Tags, network: Id, calls: EnsureBastionCalls)
    requires tags != map[] && HonestEnsure(calls)
    ensures var op := EnsureBastion(c, tags, network, calls);
            && (op.result.Ok? <==> Completes(c, tags, network, calls))
            && Tagged(op.cloud, Groups, tags) ==
               OneIf(GroupMade(c, tags, network, calls), c.groups.nextID, Tagged(c, Groups, tags))
            && Tagged(op.cloud, Servers, tags) ==
               OneIf(ServerMade(c, tags, network, calls), c.servers.nextID, Tagged(c, Servers, tags))
            && Tagged(op.cloud, Addresses, tags) ==
               OneIf(AddressMade(c, tags, network, calls), c.addresses.nextID, Tagged(c, Addresses, tags))
  {
    hide FindOrCreate, CreateServerIn, Passes, Makes, Tagged;
    if network != 0 {
      var group := FindOrCreate(c, Groups, tags, calls.group);
      FindOrCreateEffect(c, Groups, tags, calls.group);
      FindOrCreateFrame(c, Groups, tags, calls.group);
      TaggedSame(c, group.cloud, Servers, tags);
      TaggedSame(c, group.cloud, Addresses, tags);
      if group.result.Ok? && calls.rules.Works? {
        FromServer(c, group.cloud, group.result.value, tags, network, calls);
      }
    }
  }

  lemma FromServer(c: CloudState, c1: CloudState, group: Id, tags: Tags, network: Id, calls: EnsureBastionCalls)
    requires tags != map[] && network != 0 && HonestEnsure(calls) && AtServer(c, tags, network, calls)
    requires FindOrCreate(c, Groups, tags, calls.group) == Op(c1, Ok(group))
    requires c1 == c.(groups := c1.groups)
    ensures var op := EnsureBastion(c, tags, network, calls);
            && (op.result.Ok? <==> Completes(c, tags, network, calls))
            && Tagged(op.cloud, Groups, tags) == Tagged(c1, Groups, tags)
            && Tagged(op.cloud, Servers, tags) ==
               OneIf(ServerMade(c, tags, network, calls), c.servers.nextID, Tagged(c, Servers, tags))
            && Tagged(op.cloud, Addresses, tags) ==
               OneIf(AddressMade(c, tags, network, calls), c.addresses.nextID, Tagged(c, Addresses, tags))
  {
    hide FindOrCreate, CreateServerIn, Passes, Makes, Tagged;
    TaggedSame(c, c1, Servers, tags);
    TaggedSame(c, c1, Addresses, tags);
    var server := CreateServerIn(c1, tags, group, calls.server);
    CreateServerInEffect(c1, tags, group, calls.server);
    CreateServerInFrame(c1, tags, group, calls.server);
    TaggedSame(c1, server.cloud, Groups, tags);
    TaggedSame(c1, server.cloud, Addresses, tags);
    if server.result.Ok? {
      var attach := Attach(server.cloud, server.result.value, group, calls.attach);
      assert attach.cloud == server.cloud.(attached := attach.cloud.attached);
      TaggedSame(server.cloud, attach.cloud, Groups, tags);
      TaggedSame(server.cloud, attach.cloud, Servers, tags);
      TaggedSame(server.cloud, attach.cloud, Addresses, tags);
      var address := FindOrCreate(attach.cloud, Addresses, tags, calls.address);
      FindOrCreateEffect(attach.cloud, Addresses, tags, calls.address);
      FindOrCreateFrame(attach.cloud, Addresses, tags, calls.address);
      TaggedSame(attach.cloud, address.cloud, Groups, tags);
      TaggedSame(attach.cloud, address.cloud, Servers, tags);
    }
  }

  /** It makes a new resource of a kind for which an ID is recorded. */
  ghost predicate Replaces(c: CloudState, tags: Tags, network: Id, recorded: BastionIDs, calls: EnsureBastionCalls)
  {
    || (recorded.group != 0 && GroupMade(c, tags, network, calls))
    || (recorded.server != 0 && ServerMade(c, tags, network, calls))
    || (recorded.address != 0 && AddressMade(c, tags, network, calls))
  }

  /** The recorded IDs were handed out at some time. */
  predicate IdsKnown(c: CloudState, ids: BastionIDs)
  {
    ids.server < c.servers.nextID && ids.address < c.addresses.nextID && ids.group < c.groups.nextID
  }

  /** A record that covered still covers after EnsureBastion, wherever that stops, if
      and only if nothing recorded was replaced. */
  lemma {:induction false} StillCoversIff(c: CloudState, tags: Tags, network: Id, recorded: BastionIDs,
                                          calls: EnsureBastionCalls)
    requires tags != map[] && HonestEnsure(calls) && BastionCovered(c, tags, recorded)
    ensures var c' := EnsureBastion(c, tags, network, calls).cloud;
            && (!Replaces(c, tags, network, recorded, calls) ==> BastionCovered(c', tags, recorded))
            && (IdsKnown(c, recorded) && Replaces(c, tags, network, recorded, calls) ==>
                !BastionCovered(c', tags, recorded))
  {
    EnsureEffect(c, tags, network, calls);
    hide EnsureBastion, GroupMade, ServerMade, AddressMade, Tagged;
  }

  /** Starting from nothing, EnsureBastion leaves something exactly when it gets its
      first resource, the security group, created. */
  lemma {:induction false} LeavesSomethingIff(c: CloudState, tags: Tags, network: Id, calls: EnsureBastionCalls)
    requires tags != map[] && BastionGone(c, tags) && HonestEnsure(calls)
    ensures BastionGone(EnsureBastion(c, tags, network, calls).cloud, tags) <==> !GroupMade(c, tags, network, calls)
  {
    EnsureEffect(c, tags, network, calls);
    hide EnsureBastion, Tagged;
  }
}
