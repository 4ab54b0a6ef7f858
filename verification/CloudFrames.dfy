/** What each client operation leaves alone. */
module CloudFrames {
  import opened Api
  import opened Labels
  import opened CloudModel

  /** Networks and load balancers are as before. */
  predicate BastionPartOnly(c: CloudState, c': CloudState)
  {
    c'.networks == c.networks && c'.balancers == c.balancers
  }

  lemma FindOrCreateFrame(c: CloudState, kind: Kind, tags: Tags, calls: FindOrCreateCalls)
    ensures var c' := FindOrCreate(c, kind, tags, calls).cloud; c' == WithStore(c, kind, StoreOf(c', kind))
  {
    hide Find;
  }

  lemma DeleteFrame(c: CloudState, kind: Kind, id: Id, o: Outcome)
    ensures var c' := Delete(c, kind, id, o).cloud;
            c' == WithStore(c, kind, StoreOf(c', kind)).(attached := c'.attached) && c'.attached <= c.attached
  {
  }

  lemma {:induction false} DetachAllFrame(c: CloudState, listing: seq<Id>, selector: Tags, group: Id,
                                          detach: Id -> Outcome)
    ensures var c' := DetachAll(c, listing, selector, group, detach).cloud;
            c' == c.(attached := c'.attached) && c'.attached <= c.attached
    decreases |listing|
  {
    if listing != [] {
      var d := Detach(c, listing[0], group, detach(listing[0]));
      DetachAllFrame(c, listing[1..], selector, group, detach);
      DetachAllFrame(d.cloud, listing[1..], selector, group, detach);
    }
  }

  lemma EnsureNodeSSHFrame(c: CloudState, tags: Tags, server: Id, bastionGroup: Id, calls: EnsureNodeSSHCalls)
    ensures var c' := EnsureNodeSSH(c, tags, server, bastionGroup, calls).cloud;
            c' == c.(groups := c'.groups, attached := c'.attached)
  {
    hide FindOrCreate;
    FindOrCreateFrame(c, Groups, tags, calls.group);
  }

  lemma DropGroupFrame(c: CloudState, group: Id, rules: Outcome, delete: Outcome)
    ensures var c' := DropGroup(c, group, rules, delete).cloud;
            c' == c.(groups := c'.groups, attached := c'.attached)
  {
    hide Delete;
    DeleteFrame(c, Groups, group, delete);
  }

  lemma DeleteNodeSSHFrame(c: CloudState, tags: Tags, calls: DeleteNodeSSHCalls)
    ensures var c' := DeleteNodeSSH(c, tags, calls).cloud;
            c' == c.(groups := c'.groups, attached := c'.attached)
  {
    hide Find, DropGroup, ClusterSelector, DetachAll;
    var found := Find(c, Groups, tags, calls.find);
    if found.Ok? {
      DetachAllFrame(c, calls.listing, ClusterSelector(tags), found.value, calls.detach);
      var d := DetachAll(c, calls.listing, ClusterSelector(tags), found.value, calls.detach);
      DropGroupFrame(d.cloud, found.value, calls.rules, calls.delete);
    }
  }

  lemma DismantleFrame(c: CloudState, ids: BastionIDs, calls: DeleteBastionCalls)
    ensures BastionPartOnly(c, DismantleBastion(c, ids, calls).cloud)
  {
    hide DropGroup, Delete;
    var d := if ids.server != 0 && ids.group != 0 then Detach(c, ids.server, ids.group, calls.detach)
             else Op(c, Ok(()));
    DeleteFrame(d.cloud, Servers, ids.server, calls.deleteServer);
    var s := if ids.server != 0 then DeleteIfThere(d.cloud, Servers, ids.server, calls.deleteServer) else d;
    DeleteFrame(s.cloud, Addresses, ids.address, calls.deleteAddress);
    var a := if ids.address != 0 then DeleteIfThere(s.cloud, Addresses, ids.address, calls.deleteAddress) else s;
    DropGroupFrame(a.cloud, ids.group, calls.rules, calls.deleteGroup);
  }

  lemma DeleteBastionFrame(c: CloudState, tags: Tags, recorded: BastionIDs, calls: DeleteBastionCalls)
    ensures BastionPartOnly(c, DeleteBastion(c, tags, recorded, calls).cloud)
  {
    hide ResolveID, DismantleBastion;
    var server := ResolveID(c, Servers, recorded.server, tags, calls.findServer);
    var address := ResolveID(c, Addresses, recorded.address, tags, calls.findAddress);
    var group := ResolveID(c, Groups, recorded.group, tags, calls.findGroup);
    if server.Ok? && address.Ok? && group.Ok? {
      DismantleFrame(c, BastionIDs(server.value, address.value, group.value), calls);
    }
  }

  lemma CreateServerInFrame(c: CloudState, tags: Tags, group: Id, calls: FindOrCreateCalls)
    ensures var c' := CreateServerIn(c, tags, group, calls).cloud;
            c' == c.(servers := c'.servers, attached := c'.attached)
  {
    hide FindOrCreate;
    FindOrCreateFrame(c, Servers, tags, calls);
  }

  lemma EnsureBastionFrame(c: CloudState, tags: Tags, network: Id, calls: EnsureBastionCalls)
    ensures BastionPartOnly(c, EnsureBastion(c, tags, network, calls).cloud)
  {
    hide FindOrCreate, CreateServerIn;
    var group := FindOrCreate(c, Groups, tags, calls.group);
    FindOrCreateFrame(c, Groups, tags, calls.group);
    if group.result.Ok? {
      var server := CreateServerIn(group.cloud, tags, group.result.value, calls.server);
      CreateServerInFrame(group.cloud, tags, group.result.value, calls.server);
      if server.result.Ok? {
        var attach := Attach(server.cloud, server.result.value, group.result.value, calls.attach);
        FindOrCreateFrame(attach.cloud, Addresses, tags, calls.address);
      }
    }
  }
}
