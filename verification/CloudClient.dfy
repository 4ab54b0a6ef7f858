/** The SDK client as it works: each method changes the cloud step by step, checks
    the class of every error and returns early, and is proved to do what the
    function of the same operation in CloudModel says. */
module CloudClient {
  import opened Api
  import opened Labels
  import opened CloudModel
  import TargetPool

  lemma OnlyOfListing<K(!new)>(matched: seq<K>, s: set<K>)
    requires forall i, j :: 0 <= i < j < |matched| ==> matched[i] != matched[j]
    requires s == set k | k in matched
    ensures Only(s) == if |matched| == 0 then Err(NotFound)
                       else if |matched| > 1 then Err(Conflict) else Ok(matched[0])
  {
    if |matched| > 1 {
      assert matched[0] in s && matched[1] in s;
    } else if |matched| == 1 {
      assert matched[0] in s;
    }
  }

  class SDKClient {
    var state: CloudState

    // ---------------------------------------------------------- lookup by tags

    /** ListServersByTags and its siblings: filter what the API listed. */
    method ListByTags(kind: Kind, tags: Tags) returns (matched: seq<Id>)
      ensures (set id | id in matched) == Tagged(state, kind, tags)
      ensures forall i, j :: 0 <= i < j < |matched| ==> matched[i] != matched[j]
    {
      var items := StoreOf(state, kind).items;
      matched := [];
      var rest := items.Keys;
      while rest != {}
        invariant rest <= items.Keys
        invariant forall id :: id in matched <==> id in items.Keys - rest && Matches(items[id], tags)
        invariant forall i, j :: 0 <= i < j < |matched| ==> matched[i] != matched[j]
        decreases rest
      {
        var id :| id in rest;
        rest := rest - {id};
        var match_ := LabelsContainTags(items[id], tags);
        if match_ { matched := matched + [id]; }
      }
    }

    /** FindServerByTags, FindNetworkByTags, findPublicIPByTags, findSecurityGroupByTags. */
    method FindByTags(kind: Kind, tags: Tags, o: Outcome) returns (r: Result<Id>)
      ensures r == Find(state, kind, tags, o)
    {
      if tags == map[] { return Err(InvalidInput); }
      if !o.Works? { return Err(o.error); }
      var matched := ListByTags(kind, tags);
      OnlyOfListing(matched, Tagged(state, kind, tags));
      if |matched| == 0 { return Err(NotFound); }
      if |matched| > 1 { return Err(Conflict); }
      return Ok(matched[0]);
    }

    method GetByID(kind: Kind, id: Id, o: Outcome) returns (r: Result<Id>)
      ensures r == Get(state, kind, id, o)
    {
      if !o.Works? { return Err(o.error); }
      if id in StoreOf(state, kind).items { return Ok(id); }
      return Err(NotFound);
    }

    // ------------------------------------------------------- create and delete

    /** CreateServer, CreateNetwork, ensureBastionSecurityGroup, ensureNodeSSHSecurityGroup, ensurePublicIP. */
    method EnsureByTags(kind: Kind, tags: Tags, calls: FindOrCreateCalls) returns (r: Result<Id>)
      modifies this
      ensures Op(state, r) == FindOrCreate(old(state), kind, tags, calls)
    {
      r := FindByTags(kind, tags, calls.find);
      if r.Ok? { return; }
      if r.error != NotFound { return; }
      if calls.create.Rejected? { return Err(calls.create.error); }
      var s := StoreOf(state, kind);
      state := WithStore(state, kind, Store(s.items[s.nextID := tags], s.nextID + 1));
      if calls.create.Interrupted? { return Err(calls.create.error); }
      return Ok(s.nextID);
    }

    method DeleteByID(kind: Kind, id: Id, o: Outcome) returns (r: Result<()>)
      modifies this
      ensures Op(state, r) == Delete(old(state), kind, id, o)
    {
      if o.Rejected? { return Err(o.error); }
      var s := StoreOf(state, kind);
      if id !in s.items { return Err(if o.Works? then NotFound else o.error); }
      if kind.Groups? && exists p :: p in state.attached && p.1 == id { return Err(Conflict); }
      state := WithStore(state, kind, Store(s.items - {id}, s.nextID));
      if kind.Servers? { state := state.(attached := set p | p in state.attached && p.0 != id); }
      if o.Interrupted? { return Err(o.error); }
      return Ok(());
    }

    method AddSecurityGroupToServer(server: Id, group: Id, o: Outcome) returns (r: Result<()>)
      modifies this
      ensures Op(state, r) == Attach(old(state), server, group, o)
    {
      if !o.Rejected? && server in state.servers.items {
        state := state.(attached := state.attached + {(server, group)});
      }
      if !o.Works? && o.error != Conflict && o.error != InvalidInput && o.error != NotFound { return Err(o.error); }
      return Ok(());
    }

    method RemoveSecurityGroupFromServer(server: Id, group: Id, o: Outcome) returns (r: Result<()>)
      modifies this
      ensures Op(state, r) == Detach(old(state), server, group, o)
    {
      if !o.Rejected? { state := state.(attached := state.attached - {(server, group)}); }
      if !o.Works? && o.error != NotFound && o.error != Conflict { return Err(o.error); }
      return Ok(());
    }

    method DropSecurityGroup(group: Id, rules: Outcome, delete: Outcome) returns (r: Result<()>)
      modifies this
      ensures Op(state, r) == DropGroup(old(state), group, rules, delete)
    {
      if !rules.Works? && rules.error != NotFound { return Err(rules.error); }
      r := DeleteByID(Groups, group, delete);
      if r.Err? && r.error == NotFound { return Ok(()); }
    }

    // --------------------------------------------------------- node SSH access

    method EnsureNodeSSHAccess(tags: Tags, server: Id, bastionGroup: Id,
                               calls: EnsureNodeSSHCalls) returns (r: Result<Id>)
      modifies this
      ensures Op(state, r) == EnsureNodeSSH(old(state), tags, server, bastionGroup, calls)
    {
      if server == 0 || bastionGroup == 0 { return Err(InvalidInput); }
      if tags == map[] { return Err(InvalidInput); }
      r := EnsureByTags(Groups, tags, calls.group);
      if r.Err? { return; }
      if !calls.rule.Works? { return Err(calls.rule.error); }
      var attached := AddSecurityGroupToServer(server, r.value, calls.attach);
      if attached.Err? { return Err(attached.error); }
    }

    method DeleteNodeSSHAccess(tags: Tags, calls: DeleteNodeSSHCalls) returns (r: Result<()>)
      modifies this
      ensures Op(state, r) == DeleteNodeSSH(old(state), tags, calls)
    {
      var group := FindByTags(Groups, tags, calls.find);
      if group.Err? {
        if group.error == NotFound { return Ok(()); }
        return Err(group.error);
      }
      var selector := ClusterSelector(tags);
      if selector == map[] { return Err(InvalidInput); }
      if !calls.list.Works? { return Err(calls.list.error); }
      ghost var all := DetachAll(state, calls.listing, selector, group.value, calls.detach);
      for i := 0 to |calls.listing|
        invariant all == DetachAll(state, calls.listing[i..], selector, group.value, calls.detach)
      {
        var server := calls.listing[i];
        assert calls.listing[i..][1..] == calls.listing[i + 1..];
        if server !in state.servers.items { continue; }
        var ours := LabelsContainTags(state.servers.items[server], selector);
        if !ours { continue; }
        r := RemoveSecurityGroupFromServer(server, group.value, calls.detach(server));
        if r.Err? { return; }
      }
      r := DropSecurityGroup(group.value, calls.rules, calls.delete);
    }

    // ----------------------------------------------------------------- bastion

    method CreateServerInGroup(tags: Tags, group: Id, calls: FindOrCreateCalls) returns (r: Result<Id>)
      modifies this
      ensures Op(state, r) == CreateServerIn(old(state), tags, group, calls)
    {
      var next := state.servers.nextID;
      r := EnsureByTags(Servers, tags, calls);
      if state.servers.nextID != next { state := state.(attached := state.attached + {(next, group)}); }
    }

    method EnsureBastionHost(tags: Tags, network: Id, calls: EnsureBastionCalls) returns (r: Result<BastionIDs>)
      modifies this
      ensures Op(state, r) == EnsureBastion(old(state), tags, network, calls)
    {
      if network == 0 || tags == map[] { return Err(InvalidInput); }
      var group := EnsureByTags(Groups, tags, calls.group);
      if group.Err? { return Err(group.error); }
      if !calls.rules.Works? { return Err(calls.rules.error); }
      var server := CreateServerInGroup(tags, group.value, calls.server);
      if server.Err? { return Err(server.error); }
      var attached := AddSecurityGroupToServer(server.value, group.value, calls.attach);
      if attached.Err? { return Err(attached.error); }
      var address := EnsureByTags(Addresses, tags, calls.address);
      if address.Err? { return Err(address.error); }
      if calls.unassigned {
        if !calls.assign.Works? && calls.assign.error != Conflict { return Err(calls.assign.error); }
        if !calls.read.Works? { return Err(calls.read.error); }
      }
      return Ok(BastionIDs(server.value, address.value, group.value));
    }

    method ResolveRecorded(kind: Kind, recorded: Id, tags: Tags, o: Outcome) returns (r: Result<Id>)
      ensures r == ResolveID(state, kind, recorded, tags, o)
    {
      if recorded != 0 { return Ok(recorded); }
      r := FindByTags(kind, tags, o);
      if r.Err? && r.error == NotFound { return Ok(0); }
    }

    method DeleteBastionHost(tags: Tags, recorded: BastionIDs, calls: DeleteBastionCalls) returns (r: Result<()>)
      modifies this
      ensures Op(state, r) == DeleteBastion(old(state), tags, recorded, calls)
    {
      var server := ResolveRecorded(Servers, recorded.server, tags, calls.findServer);
      if server.Err? { return Err(server.error); }
      var address := ResolveRecorded(Addresses, recorded.address, tags, calls.findAddress);
      if address.Err? { return Err(address.error); }
      var group := ResolveRecorded(Groups, recorded.group, tags, calls.findGroup);
      if group.Err? { return Err(group.error); }
      r := Dismantle(BastionIDs(server.value, address.value, group.value), calls);
    }

    method Dismantle(ids: BastionIDs, calls: DeleteBastionCalls) returns (r: Result<()>)
      modifies this
      ensures Op(state, r) == DismantleBastion(old(state), ids, calls)
    {
      if ids.server != 0 && ids.address != 0 {
        if !calls.unassign.Works? && calls.unassign.error != NotFound && calls.unassign.error != Conflict {
          return Err(calls.unassign.error);
        }
      }
      if ids.server != 0 && ids.group != 0 {
        r := RemoveSecurityGroupFromServer(ids.server, ids.group, calls.detach);
        if r.Err? { return; }
      }
      if ids.server != 0 {
        r := DeleteByID(Servers, ids.server, calls.deleteServer);
        if r.Err? && r.error != NotFound { return; }
      }
      if ids.address != 0 {
        r := DeleteByID(Addresses, ids.address, calls.deleteAddress);
        if r.Err? && r.error != NotFound { return; }
      }
      if ids.group != 0 {
        r := DropSecurityGroup(ids.group, calls.rules, calls.deleteGroup);
        if r.Err? { return; }
      }
      return Ok(());
    }

    // ---------------------------------------------------------- load balancers

    method ListBalancers(labels: Tags) returns (matched: seq<string>)
      ensures (set name | name in matched) == MatchingBalancers(state, labels)
      ensures forall i, j :: 0 <= i < j < |matched| ==> matched[i] != matched[j]
    {
      matched := [];
      var rest := state.balancers.Keys;
      while rest != {}
        invariant rest <= state.balancers.Keys
        invariant forall n :: n in matched <==>
                    n in state.balancers.Keys - rest && MapContains(state.balancers[n].labels, labels)
        invariant forall i, j :: 0 <= i < j < |matched| ==> matched[i] != matched[j]
        decreases rest
      {
        var n :| n in rest;
        rest := rest - {n};
        if MapContains(state.balancers[n].labels, labels) { matched := matched + [n]; }
      }
    }

    method FindLoadBalancerByTags(labels: Tags, list: Outcome, serviceOff: bool) returns (r: Result<string>)
      ensures r == FindBalancer(state, labels, list, serviceOff)
    {
      if labels == map[] { return Err(InvalidInput); }
      if serviceOff { return Err(NotFound); }
      if !list.Works? { return Err(list.error); }
      var matched := ListBalancers(labels);
      OnlyOfListing(matched, MatchingBalancers(state, labels));
      if |matched| == 0 { return Err(NotFound); }
      if |matched| > 1 { return Err(Conflict); }
      return Ok(matched[0]);
    }

    method EnsureAPIServerLoadBalancer(name: string, labels: Tags, port: int, seed: seq<TargetPool.Target>,
                                       calls: EnsureBalancerCalls) returns (r: Result<string>)
      modifies this
      ensures Op(state, r) == EnsureBalancer(old(state), name, labels, port, seed, calls)
    {
      r := FindLoadBalancerByTags(labels, calls.list, calls.serviceOff);
      if r.Ok? || r.error != NotFound { return; }
      if calls.create.Rejected? { return Err(calls.create.error); }
      if name in state.balancers { return Err(Conflict); }
      var pool := seed;
      if |seed| == 0 { pool := [DefaultPlaceholder]; }
      state := state.(balancers := state.balancers[name := Balancer(labels, port, pool)]);
      if calls.create.Interrupted? { return Err(calls.create.error); }
      return Ok(name);
    }

    method SetAPIServerLoadBalancerTargets(name: string, port: int, targets: seq<TargetPool.Target>,
                                           calls: SetTargetsCalls)
      returns (r: Result<()>)
      modifies this
      ensures Op(state, r) == SetTargets(old(state), name, port, targets, calls)
    {
      if name == "" || port <= 0 { return Err(InvalidInput); }
      if |targets| == 0 { return Err(InvalidInput); }
      for i := 0 to |targets|
        invariant forall j :: 0 <= j < i ==> targets[j].name != "" && targets[j].ip != ""
      {
        if targets[i].name == "" || targets[i].ip == "" { return Err(InvalidInput); }
      }
      if !calls.get.Works? { return Err(calls.get.error); }
      if name !in state.balancers { return Err(NotFound); }
      var b := state.balancers[name];
      var same := TargetPool.SameTargets(b.pool, targets);
      if b.port == port && same { return Ok(()); }
      if calls.update.Rejected? { return Err(calls.update.error); }
      state := state.(balancers := state.balancers[name := b.(port := port, pool := targets)]);
      if calls.update.Interrupted? { return Err(calls.update.error); }
      return Ok(());
    }

    method DeleteAPIServerLoadBalancer(name: string, o: Outcome) returns (r: Result<()>)
      modifies this
      ensures Op(state, r) == DeleteBalancer(old(state), name, o)
    {
      if o.Rejected? { return Err(o.error); }
      if name !in state.balancers { return Err(if o.Works? then NotFound else o.error); }
      state := state.(balancers := state.balancers - {name});
      if o.Interrupted? { return Err(o.error); }
      return Ok(());
    }

    method ResolveLoadBalancerID(recorded: string, labels: Tags, list: Outcome,
                                 serviceOff: bool) returns (r: Result<string>)
      ensures r == ResolveBalancer(state, recorded, labels, list, serviceOff)
    {
      if recorded != "" { return Ok(recorded); }
      if labels == map[] { return Err(InvalidInput); }
      if serviceOff { return Ok(""); }
      if !list.Works? { return Err(list.error); }
      var matched := ListBalancers(labels);
      OnlyOfListing(matched, MatchingBalancers(state, labels));
      if |matched| == 0 { return Ok(""); }
      if |matched| > 1 { return Err(Conflict); }
      return Ok(matched[0]);
    }
  }
}
