/** Every client operation keeps the cloud well formed, and what creation adds. */
module CloudValidity {
  import opened Api
  import opened Labels
  import opened CloudModel
  import opened CloudFrames
  import opened Removal

  lemma FindOrCreateValid(c: CloudState, kind: Kind, tags: Tags, calls: FindOrCreateCalls)
    requires Valid(c)
    ensures Valid(FindOrCreate(c, kind, tags, calls).cloud)
  {
    hide Find;
  }

  lemma DeleteValid(c: CloudState, kind: Kind, id: Id, o: Outcome)
    requires Valid(c)
    ensures Valid(Delete(c, kind, id, o).cloud)
  {
  }

  lemma AttachValid(c: CloudState, server: Id, group: Id, o: Outcome)
    requires Valid(c)
    ensures Valid(Attach(c, server, group, o).cloud)
  {
  }

  lemma {:induction false} DetachAllValid(c: CloudState, listing: seq<Id>, selector: Tags, group: Id,
                                          detach: Id -> Outcome)
    requires Valid(c)
    ensures Valid(DetachAll(c, listing, selector, group, detach).cloud)
  {
    hide DetachAll;
    DetachAllFrame(c, listing, selector, group, detach);
  }

  lemma EnsureNodeSSHValid(c: CloudState, tags: Tags, server: Id, bastionGroup: Id, calls: EnsureNodeSSHCalls)
    requires Valid(c)
    ensures Valid(EnsureNodeSSH(c, tags, server, bastionGroup, calls).cloud)
  {
    hide FindOrCreate, Attach, Valid;
    FindOrCreateValid(c, Groups, tags, calls.group);
    var group := FindOrCreate(c, Groups, tags, calls.group);
    if group.result.Ok? { AttachValid(group.cloud, server, group.result.value, calls.attach); }
  }

  lemma DropGroupValid(c: CloudState, group: Id, rules: Outcome, delete: Outcome)
    requires Valid(c)
    ensures Valid(DropGroup(c, group, rules, delete).cloud)
  {
    hide Delete, Valid;
    DeleteValid(c, Groups, group, delete);
  }

  lemma DeleteNodeSSHValid(c: CloudState, tags: Tags, calls: DeleteNodeSSHCalls)
    requires Valid(c)
    ensures Valid(DeleteNodeSSH(c, tags, calls).cloud)
  {
    hide Find, ClusterSelector, DetachAll, DropGroup, Valid;
    var found := Find(c, Groups, tags, calls.find);
    if found.Ok? {
      DetachAllValid(c, calls.listing, ClusterSelector(tags), found.value, calls.detach);
      var d := DetachAll(c, calls.listing, ClusterSelector(tags), found.value, calls.detach);
      DropGroupValid(d.cloud, found.value, calls.rules, calls.delete);
    }
  }

  lemma DetachValid(c: CloudState, server: Id, group: Id, o: Outcome)
    requires Valid(c)
    ensures Valid(Detach(c, server, group, o).cloud)
  {
  }

  lemma DismantleValid(c: CloudState, ids: BastionIDs, calls: DeleteBastionCalls)
    requires Valid(c)
    ensures Valid(DismantleBastion(c, ids, calls).cloud)
  {
    hide Delete, DropGroup, Detach, Valid;
    DetachValid(c, ids.server, ids.group, calls.detach);
    var d := if ids.server != 0 && ids.group != 0 then Detach(c, ids.server, ids.group, calls.detach)
             else Op(c, Ok(()));
    DeleteValid(d.cloud, Servers, ids.server, calls.deleteServer);
    var s := if ids.server != 0 then DeleteIfThere(d.cloud, Servers, ids.server, calls.deleteServer) else d;
    DeleteValid(s.cloud, Addresses, ids.address, calls.deleteAddress);
    var a := if ids.address != 0 then DeleteIfThere(s.cloud, Addresses, ids.address, calls.deleteAddress) else s;
    DropGroupValid(a.cloud, ids.group, calls.rules, calls.deleteGroup);
  }

  lemma DeleteBastionValid(c: CloudState, tags: Tags, recorded: BastionIDs, calls: DeleteBastionCalls)
    requires Valid(c)
    ensures Valid(DeleteBastion(c, tags, recorded, calls).cloud)
  {
    hide ResolveID, DismantleBastion, Valid;
    var server := ResolveID(c, Servers, recorded.server, tags, calls.findServer);
    var address := ResolveID(c, Addresses, recorded.address, tags, calls.findAddress);
    var group := ResolveID(c, Groups, recorded.group, tags, calls.findGroup);
    if server.Ok? && address.Ok? && group.Ok? {
      DismantleValid(c, BastionIDs(server.value, address.value, group.value), calls);
    }
  }

  lemma CreateServerInValid(c: CloudState, tags: Tags, group: Id, calls: FindOrCreateCalls)
    requires Valid(c)
    ensures Valid(CreateServerIn(c, tags, group, calls).cloud)
  {
    hide Find;
  }

  lemma EnsureBastionValid(c: CloudState, tags: Tags, network: Id, calls: EnsureBastionCalls)
    requires Valid(c)
    ensures Valid(EnsureBastion(c, tags, network, calls).cloud)
  {
    hide FindOrCreate, CreateServerIn, Attach, Valid;
    FindOrCreateValid(c, Groups, tags, calls.group);
    var group := FindOrCreate(c, Groups, tags, calls.group);
    if group.result.Ok? {
      CreateServerInValid(group.cloud, tags, group.result.value, calls.server);
      var server := CreateServerIn(group.cloud, tags, group.result.value, calls.server);
      if server.result.Ok? {
        AttachValid(server.cloud, server.result.value, group.result.value, calls.attach);
        var attach := Attach(server.cloud, server.result.value, group.result.value, calls.attach);
        FindOrCreateValid(attach.cloud, Addresses, tags, calls.address);
      }
    }
  }

  // --------------------------------------------------------------- what is added

  /** Find-or-create with an honest lookup ends with exactly the resource it returns,
      and keeps a unique resource unique even when it fails half-way. */
  lemma FindOrCreateUnique(c: CloudState, kind: Kind, tags: Tags, calls: FindOrCreateCalls)
    requires tags != map[] && Truthful(calls.find)
    ensures var op := FindOrCreate(c, kind, tags, calls);
            && (op.result.Ok? ==> Tagged(op.cloud, kind, tags) == {op.result.value})
            && (AtMostOne(Tagged(c, kind, tags)) ==> AtMostOne(Tagged(op.cloud, kind, tags)))
  {
    FoundIsTheOne(c, kind, tags, calls.find);
    if Find(c, kind, tags, calls.find) == Err(NotFound) {
      assert Matches(tags, tags);
      var op := Create(c, kind, tags, calls.create);
      assert Tagged(op.cloud, kind, tags) == if calls.create.Rejected? then {} else {StoreOf(c, kind).nextID};
    }
  }

  predicate HonestEnsure(calls: EnsureBastionCalls)
  {
    Truthful(calls.group.find) && Truthful(calls.server.find) && Truthful(calls.address.find)
  }

  lemma CreateServerInUnique(c: CloudState, tags: Tags, group: Id, calls: FindOrCreateCalls)
    requires tags != map[] && Truthful(calls.find)
    ensures var op := CreateServerIn(c, tags, group, calls);
            op.result.Ok? ==> Tagged(op.cloud, Servers, tags) == {op.result.value}
  {
    hide FindOrCreate;
    FindOrCreateUnique(c, Servers, tags, calls);
  }

  lemma TaggedSame(c: CloudState, c': CloudState, kind: Kind, tags: Tags)
    requires StoreOf(c, kind) == StoreOf(c', kind)
    ensures Tagged(c, kind, tags) == Tagged(c', kind, tags)
  {
  }

  /** EnsureBastion that succeeds reports the only tagged resource of each kind. */
  lemma EnsuredBastionIsTheOne(c: CloudState, tags: Tags, network: Id, calls: EnsureBastionCalls)
    requires HonestEnsure(calls)
    ensures var op := EnsureBastion(c, tags, network, calls);
            op.result.Ok? ==>
              && Tagged(op.cloud, Servers, tags) == {op.result.value.server}
              && Tagged(op.cloud, Addresses, tags) == {op.result.value.address}
              && Tagged(op.cloud, Groups, tags) == {op.result.value.group}
  {
    hide FindOrCreate, CreateServerIn, Tagged;
    if tags != map[] && network != 0 {
      var group := FindOrCreate(c, Groups, tags, calls.group);
      FindOrCreateUnique(c, Groups, tags, calls.group);
      if group.result.Ok? {
        var server := CreateServerIn(group.cloud, tags, group.result.value, calls.server);
        CreateServerInUnique(group.cloud, tags, group.result.value, calls.server);
        CreateServerInFrame(group.cloud, tags, group.result.value, calls.server);
        if server.result.Ok? {
          var attach := Attach(server.cloud, server.result.value, group.result.value, calls.attach);
          var address := FindOrCreate(attach.cloud, Addresses, tags, calls.address);
          FindOrCreateUnique(attach.cloud, Addresses, tags, calls.address);
          FindOrCreateFrame(attach.cloud, Addresses, tags, calls.address);
          TaggedSame(group.cloud, address.cloud, Groups, tags);
          TaggedSame(server.cloud, address.cloud, Servers, tags);
        }
      }
    }
  }
}
