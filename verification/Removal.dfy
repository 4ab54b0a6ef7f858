/** What is left after the clean-up operations of cloud/sdk_client.go, for every
    combination of recorded IDs, tagged resources and call outcomes. */
module Removal {
  import opened Api
  import opened Labels
  import opened CloudModel
  import opened CloudFrames

  lemma DeletedIfThere(c: CloudState, kind: Kind, id: Id, o: Outcome)
    requires DeleteIfThere(c, kind, id, o).result.Ok?
    ensures StoreOf(DeleteIfThere(c, kind, id, o).cloud, kind).items ==
            if Pretends(o) then StoreOf(c, kind).items else StoreOf(c, kind).items - {id}
  {
  }

  lemma DeleteShrinks(c: CloudState, kind: Kind, id: Id, o: Outcome)
    ensures var s, s' := StoreOf(c, kind), StoreOf(Delete(c, kind, id, o).cloud, kind);
            s'.nextID == s.nextID && (s'.items == s.items || s'.items == s.items - {id})
  {
  }

  lemma TaggedWithout(items: map<Id, Tags>, id: Id, tags: Tags)
    ensures Matching(items - {id}, tags) == Matching(items, tags) - {id}
  {
  }

  lemma FoundIsTheOne(c: CloudState, kind: Kind, tags: Tags, o: Outcome)
    requires tags != map[]
    ensures var r := Find(c, kind, tags, o);
            && (r.Ok? ==> Tagged(c, kind, tags) == {r.value})
            && (Truthful(o) && r == Err(NotFound) ==> Tagged(c, kind, tags) == {})
  {
    hide Tagged;
    var r := Find(c, kind, tags, o);
    if r.Ok? { assert forall x :: x in Tagged(c, kind, tags) ==> x == r.value; }
  }

  /** Nothing tagged hides behind the recorded ID. */
  predicate Covers(recorded: Id, tagged: set<Id>)
  {
    recorded != 0 ==> tagged <= {recorded}
  }

  /** No answer denies what is there: the lookup, if it is needed, and the deletion. */
  predicate Answered(recorded: Id, tagged: set<Id>, find: Outcome, delete: Outcome)
  {
    tagged == {} || (!Pretends(delete) && (recorded == 0 ==> Truthful(find)))
  }

  /** What a deletion that counts as done leaves of the tagged resources. */
  function LeftOf(tagged: set<Id>, id: Id, delete: Outcome): set<Id>
  {
    if Pretends(delete) then tagged else tagged - {id}
  }

  /** Deleting the resolved ID leaves nothing tagged exactly when the record covers and
      no answer denies it. */
  lemma ResolvedClearsIff(c: CloudState, kind: Kind, recorded: Id, tags: Tags, find: Outcome, delete: Outcome)
    requires tags != map[] && ValidStore(StoreOf(c, kind)) && ResolveID(c, kind, recorded, tags, find).Ok?
    ensures var tagged := Tagged(c, kind, tags);
            LeftOf(tagged, ResolveID(c, kind, recorded, tags, find).value, delete) == {} <==>
            Covers(recorded, tagged) && Answered(recorded, tagged, find, delete)
  {
    assert Tagged(c, kind, tags) - {0} == Tagged(c, kind, tags);
    hide Tagged, Find;
    FoundIsTheOne(c, kind, tags, find);
  }

  // ------------------------------------------------------------- node SSH access

  /** No labels carry both roles. */
  lemma RolesExclude(labels: Tags, bastion: Tags, node: Tags)
    requires ResourceRole in bastion && bastion[ResourceRole] == RoleBastion
    requires ResourceRole in node && node[ResourceRole] == RoleNodeSSH
    ensures !(Matches(labels, bastion) && Matches(labels, node))
  {
    KeysDiffer();
  }

  predicate HonestNodeSSH(calls: DeleteNodeSSHCalls)
  {
    Truthful(calls.find) && Truthful(calls.list) && Truthful(calls.delete)
  }

  lemma DropGroupItems(c: CloudState, group: Id, rules: Outcome, delete: Outcome)
    ensures var c' := DropGroup(c, group, rules, delete).cloud;
            && (c'.groups.items == c.groups.items || c'.groups.items == c.groups.items - {group})
            && c'.groups.nextID == c.groups.nextID
            && (DropGroup(c, group, rules, delete).result.Ok? ==>
                  c'.groups.items == if Pretends(delete) then c.groups.items else c.groups.items - {group})
  {
    hide Delete;
    DeleteShrinks(c, Groups, group, delete);
    if DropGroup(c, group, rules, delete).result.Ok? { DeletedIfThere(c, Groups, group, delete); }
  }

  /** No answer denies the node-SSH group. */
  predicate NodeAnswered(tagged: set<Id>, calls: DeleteNodeSSHCalls)
  {
    tagged == {} || (Truthful(calls.find) && Truthful(calls.list) && !Pretends(calls.delete))
  }

  /** Groups shrink by at most the one tagged group; when the call succeeds or fails
      with a "not found" that its caller forgives, none is left exactly when no answer
      denied it. */
  lemma DeleteNodeSSHItems(c: CloudState, tags: Tags, calls: DeleteNodeSSHCalls)
    requires tags != map[]
    ensures var op := DeleteNodeSSH(c, tags, calls);
            && op.cloud.groups.nextID == c.groups.nextID
            && (op.cloud.groups.items == c.groups.items ||
                exists g :: g in Tagged(c, Groups, tags) && op.cloud.groups.items == c.groups.items - {g})
            && (op.result.Ok? || op.result.error == NotFound ==>
                  (Tagged(op.cloud, Groups, tags) == {} <==> NodeAnswered(Tagged(c, Groups, tags), calls)))
  {
    hide Find, DropGroup, DetachAll, ClusterSelector, Tagged;
    FoundIsTheOne(c, Groups, tags, calls.find);
    var found := Find(c, Groups, tags, calls.find);
    assert found.Ok? ==> calls.find.Works? by { FoundWorks(c, tags, calls.find); }
    if found.Ok? {
      DetachAllFrame(c, calls.listing, ClusterSelector(tags), found.value, calls.detach);
      DetachAllErrors(c, calls.listing, ClusterSelector(tags), found.value, calls.detach);
      var d := DetachAll(c, calls.listing, ClusterSelector(tags), found.value, calls.detach);
      DropGroupItems(d.cloud, found.value, calls.rules, calls.delete);
      DropGroupErrors(d.cloud, found.value, calls.rules, calls.delete);
      TaggedAfter(c, DropGroup(d.cloud, found.value, calls.rules, calls.delete).cloud, Groups, found.value, tags);
    }
  }

  lemma FoundWorks(c: CloudState, tags: Tags, o: Outcome)
    ensures Find(c, Groups, tags, o).Ok? ==> o.Works?
  {
  }

  lemma TaggedAfter(c: CloudState, c': CloudState, kind: Kind, id: Id, tags: Tags)
    ensures StoreOf(c', kind).items == StoreOf(c, kind).items - {id} ==>
            Tagged(c', kind, tags) == Tagged(c, kind, tags) - {id}
    ensures StoreOf(c', kind).items == StoreOf(c, kind).items ==> Tagged(c', kind, tags) == Tagged(c, kind, tags)
  {
    TaggedWithout(StoreOf(c, kind).items, id, tags);
  }

  /** A cleanup that fails never reports "not found" when the API is honest. */
  lemma DeleteNodeSSHNeverNotFound(c: CloudState, tags: Tags, calls: DeleteNodeSSHCalls)
    requires HonestNodeSSH(calls)
    ensures DeleteNodeSSH(c, tags, calls).result != Err(NotFound)
  {
    hide Find, DropGroup, DetachAll, ClusterSelector;
    var found := Find(c, Groups, tags, calls.find);
    if found.Ok? {
      DetachAllErrors(c, calls.listing, ClusterSelector(tags), found.value, calls.detach);
      var d := DetachAll(c, calls.listing, ClusterSelector(tags), found.value, calls.detach);
      DropGroupErrors(d.cloud, found.value, calls.rules, calls.delete);
    }
  }

  lemma DropGroupErrors(c: CloudState, group: Id, rules: Outcome, delete: Outcome)
    ensures DropGroup(c, group, rules, delete).result != Err(NotFound)
  {
    hide Delete;
  }

  lemma {:induction false} DetachAllErrors(c: CloudState, listing: seq<Id>, selector: Tags, group: Id,
                                           detach: Id -> Outcome)
    ensures DetachAll(c, listing, selector, group, detach).result != Err(NotFound)
    decreases |listing|
  {
    if listing != [] {
      DetachAllErrors(c, listing[1..], selector, group, detach);
      DetachAllErrors(Detach(c, listing[0], group, detach(listing[0])).cloud, listing[1..], selector, group, detach);
    }
  }

  // --------------------------------------------------------------------- bastion

  predicate HonestBastion(calls: DeleteBastionCalls)
  {
    && Truthful(calls.findServer) && Truthful(calls.findAddress) && Truthful(calls.findGroup)
    && Truthful(calls.deleteServer) && Truthful(calls.deleteAddress) && Truthful(calls.deleteGroup)
  }

  function Minus(items: map<Id, Tags>, id: Id, delete: Outcome): map<Id, Tags>
  {
    if Pretends(delete) then items else items - {id}
  }

  /** Dismantling takes away at most the named resources, and on success all of them
      but those whose deletion only pretends. */
  ghost predicate Removes(c: CloudState, op: Op<()>, ids: BastionIDs, calls: DeleteBastionCalls)
  {
    && (op.cloud.servers.items == c.servers.items || op.cloud.servers.items == c.servers.items - {ids.server})
    && (op.cloud.addresses.items == c.addresses.items || op.cloud.addresses.items == c.addresses.items - {ids.address})
    && (op.cloud.groups.items == c.groups.items || op.cloud.groups.items == c.groups.items - {ids.group})
    && op.cloud.servers.nextID == c.servers.nextID && op.cloud.addresses.nextID == c.addresses.nextID
    && op.cloud.groups.nextID == c.groups.nextID
    && (op.result.Ok? ==>
          && op.cloud.servers.items == Minus(c.servers.items, ids.server, calls.deleteServer)
          && op.cloud.addresses.items == Minus(c.addresses.items, ids.address, calls.deleteAddress)
          && op.cloud.groups.items == Minus(c.groups.items, ids.group, calls.deleteGroup))
  }

  lemma DismantleItems(c: CloudState, ids: BastionIDs, calls: DeleteBastionCalls)
    requires ValidStore(c.servers) && ValidStore(c.addresses) && ValidStore(c.groups)
    ensures Removes(c, DismantleBastion(c, ids, calls), ids, calls)
  {
    hide DropGroup, Delete, DeleteIfThere;
    var d := if ids.server != 0 && ids.group != 0 then Detach(c, ids.server, ids.group, calls.detach)
             else Op(c, Ok(()));
    assert d.cloud == c.(attached := d.cloud.attached);
    if d.result.Ok? {
      var s := if ids.server != 0 then DeleteIfThere(d.cloud, Servers, ids.server, calls.deleteServer) else d;
      DeleteIfThereItems(d.cloud, Servers, ids.server, calls.deleteServer);
      if s.result.Ok? {
        var a := if ids.address != 0 then DeleteIfThere(s.cloud, Addresses, ids.address, calls.deleteAddress) else s;
        DeleteIfThereItems(s.cloud, Addresses, ids.address, calls.deleteAddress);
        DropGroupItems(a.cloud, ids.group, calls.rules, calls.deleteGroup);
        DropGroupFrame(a.cloud, ids.group, calls.rules, calls.deleteGroup);
        assert c.servers.items - {0} == c.servers.items && c.addresses.items - {0} == c.addresses.items;
        assert c.groups.items - {0} == c.groups.items;
      }
    }
  }

  lemma DeleteIfThereItems(c: CloudState, kind: Kind, id: Id, o: Outcome)
    ensures var c' := DeleteIfThere(c, kind, id, o).cloud;
            var s, s' := StoreOf(c, kind), StoreOf(c', kind);
            && c' == WithStore(c, kind, s').(attached := c'.attached)
            && s'.nextID == s.nextID && (s'.items == s.items || s'.items == s.items - {id})
            && (DeleteIfThere(c, kind, id, o).result.Ok? ==> s'.items == Minus(s.items, id, o))
  {
    hide Delete;
    DeleteFrame(c, kind, id, o);
    DeleteShrinks(c, kind, id, o);
    if DeleteIfThere(c, kind, id, o).result.Ok? { DeletedIfThere(c, kind, id, o); }
  }

  predicate BastionCovered(c: CloudState, tags: Tags, recorded: BastionIDs)
  {
    && Covers(recorded.server, Tagged(c, Servers, tags))
    && Covers(recorded.address, Tagged(c, Addresses, tags))
    && Covers(recorded.group, Tagged(c, Groups, tags))
  }

  predicate BastionGone(c: CloudState, tags: Tags)
  {
    Tagged(c, Servers, tags) == {} && Tagged(c, Addresses, tags) == {} && Tagged(c, Groups, tags) == {}
  }

  /** The three tagged sets only ever shrink. */
  predicate BastionShrinks(c: CloudState, c': CloudState, tags: Tags)
  {
    && Tagged(c', Servers, tags) <= Tagged(c, Servers, tags)
    && Tagged(c', Addresses, tags) <= Tagged(c, Addresses, tags)
    && Tagged(c', Groups, tags) <= Tagged(c, Groups, tags)
  }

  /** No answer denies a resource of the bastion. */
  predicate BastionAnswered(c: CloudState, tags: Tags, recorded: BastionIDs, calls: DeleteBastionCalls)
  {
    && Answered(recorded.server, Tagged(c, Servers, tags), calls.findServer, calls.deleteServer)
    && Answered(recorded.address, Tagged(c, Addresses, tags), calls.findAddress, calls.deleteAddress)
    && Answered(recorded.group, Tagged(c, Groups, tags), calls.findGroup, calls.deleteGroup)
  }

  lemma HonestIsAnswered(c: CloudState, tags: Tags, recorded: BastionIDs, calls: DeleteBastionCalls)
    requires HonestBastion(calls)
    ensures BastionAnswered(c, tags, recorded, calls)
  {
    hide Tagged;
  }

  lemma LeftTagged(c: CloudState, c': CloudState, kind: Kind, id: Id, tags: Tags, delete: Outcome)
    requires StoreOf(c', kind).items == Minus(StoreOf(c, kind).items, id, delete)
    ensures Tagged(c', kind, tags) == LeftOf(Tagged(c, kind, tags), id, delete)
  {
    TaggedAfter(c, c', kind, id, tags);
    hide Tagged;
  }

  /** DeleteBastion, whenever it succeeds, leaves no tagged resource if and only if
      each recorded ID is empty or names every resource that carries the tags, and no
      lookup or deletion denies one. */
  lemma {:induction false} DeletedBastionGoneIff(c: CloudState, tags: Tags, recorded: BastionIDs,
                                                 calls: DeleteBastionCalls)
    requires tags != map[] && ValidStore(c.servers) && ValidStore(c.addresses) && ValidStore(c.groups)
    requires DeleteBastion(c, tags, recorded, calls).result.Ok?
    ensures BastionGone(DeleteBastion(c, tags, recorded, calls).cloud, tags) <==>
            BastionCovered(c, tags, recorded) && BastionAnswered(c, tags, recorded, calls)
  {
    hide ResolveID, DismantleBastion, Tagged, Covers, Answered, Minus, LeftOf;
    var server := ResolveID(c, Servers, recorded.server, tags, calls.findServer);
    var address := ResolveID(c, Addresses, recorded.address, tags, calls.findAddress);
    var group := ResolveID(c, Groups, recorded.group, tags, calls.findGroup);
    var ids := BastionIDs(server.value, address.value, group.value);
    var c' := DismantleBastion(c, ids, calls).cloud;
    DismantleItems(c, ids, calls);
    LeftTagged(c, c', Servers, ids.server, tags, calls.deleteServer);
    LeftTagged(c, c', Addresses, ids.address, tags, calls.deleteAddress);
    LeftTagged(c, c', Groups, ids.group, tags, calls.deleteGroup);
    ResolvedClearsIff(c, Servers, recorded.server, tags, calls.findServer, calls.deleteServer);
    ResolvedClearsIff(c, Addresses, recorded.address, tags, calls.findAddress, calls.deleteAddress);
    ResolvedClearsIff(c, Groups, recorded.group, tags, calls.findGroup, calls.deleteGroup);
  }

  /** And what it leaves of groups that carry other tags. */
  lemma DeletedBastionGroups(c: CloudState, tags: Tags, recorded: BastionIDs, calls: DeleteBastionCalls, other: Tags)
    requires tags != map[] && ValidStore(c.servers) && ValidStore(c.addresses) && ValidStore(c.groups)
    requires DeleteBastion(c, tags, recorded, calls).result.Ok?
    requires Tagged(c, Groups, tags) !! Tagged(c, Groups, other)
    ensures Tagged(DeleteBastion(c, tags, recorded, calls).cloud, Groups, other) ==
            LeftOf(Tagged(c, Groups, other), recorded.group, calls.deleteGroup)
  {
    var server := ResolveID(c, Servers, recorded.server, tags, calls.findServer);
    var address := ResolveID(c, Addresses, recorded.address, tags, calls.findAddress);
    var group := ResolveID(c, Groups, recorded.group, tags, calls.findGroup);
    assert Tagged(c, Groups, other) - {0} == Tagged(c, Groups, other);
    FoundIsTheOne(c, Groups, tags, calls.findGroup);
    var ids := BastionIDs(server.value, address.value, group.value);
    DismantleItems(c, ids, calls);
    LeftTagged(c, DismantleBastion(c, ids, calls).cloud, Groups, ids.group, other, calls.deleteGroup);
    hide DismantleBastion, Tagged, Find;
  }

  lemma DeleteBastionShrinks(c: CloudState, tags: Tags, recorded: BastionIDs, calls: DeleteBastionCalls, any: Tags)
    requires ValidStore(c.servers) && ValidStore(c.addresses) && ValidStore(c.groups)
    ensures BastionShrinks(c, DeleteBastion(c, tags, recorded, calls).cloud, any)
  {
    hide ResolveID, DismantleBastion, Tagged;
    var server := ResolveID(c, Servers, recorded.server, tags, calls.findServer);
    var address := ResolveID(c, Addresses, recorded.address, tags, calls.findAddress);
    var group := ResolveID(c, Groups, recorded.group, tags, calls.findGroup);
    if server.Ok? && address.Ok? && group.Ok? {
      var ids := BastionIDs(server.value, address.value, group.value);
      var c' := DismantleBastion(c, ids, calls).cloud;
      DismantleItems(c, ids, calls);
      TaggedAfter(c, c', Servers, ids.server, any);
      TaggedAfter(c, c', Addresses, ids.address, any);
      TaggedAfter(c, c', Groups, ids.group, any);
    }
  }

  lemma DeleteBastionNeverNotFound(c: CloudState, tags: Tags, recorded: BastionIDs, calls: DeleteBastionCalls)
    requires tags != map[]
    ensures DeleteBastion(c, tags, recorded, calls).result != Err(NotFound)
  {
    hide Find, DropGroup, Delete;
    forall ids: BastionIDs ensures DismantleBastion(c, ids, calls).result != Err(NotFound) {
      DismantleErrors(c, ids, calls);
    }
    hide DismantleBastion;
  }

  lemma DismantleErrors(c: CloudState, ids: BastionIDs, calls: DeleteBastionCalls)
    ensures DismantleBastion(c, ids, calls).result != Err(NotFound)
  {
    hide DropGroup, Delete;
    forall d: CloudState ensures DropGroup(d, ids.group, calls.rules, calls.deleteGroup).result != Err(NotFound) {
      DropGroupErrors(d, ids.group, calls.rules, calls.deleteGroup);
    }
  }
}
