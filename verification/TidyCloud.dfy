/** What keeps clean-up possible: one tagged resource per kind, the bastion's group
    used by the bastion only and node-SSH groups by the Cluster's machines only. Every client operation keeps it,
    also when it fails half-way. */
module TidyCloud {
  import opened Api
  import opened Labels
  import opened CloudModel
  import opened CloudFrames
  import opened CloudValidity
  import opened Removal

  /** Bastion and node-SSH tags carry their roles. */
  predicate Roles(b: Tags, n: Tags)
  {
    && ResourceRole in b && b[ResourceRole] == RoleBastion
    && ResourceRole in n && n[ResourceRole] == RoleNodeSSH
  }

  ghost predicate Unique(c: CloudState, b: Tags, n: Tags)
  {
    && AtMostOne(Tagged(c, Servers, b)) && AtMostOne(Tagged(c, Addresses, b))
    && AtMostOne(Tagged(c, Groups, b)) && AtMostOne(Tagged(c, Groups, n))
  }

  /** Only the bastion uses the bastion group. */
  predicate BastionOnly(c: CloudState, b: Tags)
  {
    forall p :: p in c.attached && p.1 in Tagged(c, Groups, b) ==> p.0 in Tagged(c, Servers, b)
  }

  /** The Cluster that owns a StackitCluster; its machines' servers carry its name. */
  datatype Owner = Owner(name: string, namespace: string)

  /** Labels of a machine's server of that Cluster. */
  predicate NodeOf(labels: Tags, k: Owner)
  {
    BelongsTo(labels, k.name, k.namespace) && MachineUID in labels
  }

  /** Node-SSH groups are used by machine servers of the owning Cluster only. */
  predicate NodesOnly(c: CloudState, n: Tags, k: Owner)
  {
    forall p :: p in c.attached && p.1 in Tagged(c, Groups, n) && p.0 in c.servers.items ==>
      NodeOf(c.servers.items[p.0], k)
  }

  ghost predicate Attached(c: CloudState, b: Tags, n: Tags, k: Owner)
  {
    && (forall p :: p in c.attached ==> p.1 < c.groups.nextID)
    && BastionOnly(c, b) && NodesOnly(c, n, k)
  }

  ghost predicate Tidy(c: CloudState, b: Tags, n: Tags, k: Owner)
  {
    Valid(c) && Unique(c, b, n) && Attached(c, b, n, k)
  }

  // ------------------------------------------------------------------- taking away

  predicate Within(s: Store, s': Store)
  {
    s'.nextID == s.nextID && forall id :: id in s'.items ==> id in s.items && s'.items[id] == s.items[id]
  }

  /** Things only went away. */
  predicate Reduced(c: CloudState, c': CloudState)
  {
    && Within(c.servers, c'.servers) && Within(c.networks, c'.networks)
    && Within(c.addresses, c'.addresses) && Within(c.groups, c'.groups)
    && c'.attached <= c.attached
  }

  lemma ReducedThrough(c: CloudState, c1: CloudState, c2: CloudState)
    requires Reduced(c, c1) && Reduced(c1, c2)
    ensures Reduced(c, c2)
  {
  }

  lemma ReducedTagged(c: CloudState, c': CloudState, kind: Kind, tags: Tags)
    requires Reduced(c, c')
    ensures Tagged(c', kind, tags) <= Tagged(c, kind, tags)
  {
  }

  lemma ReducedTidy(c: CloudState, c': CloudState, b: Tags, n: Tags, k: Owner)
    requires Tidy(c, b, n, k) && Reduced(c, c') && Valid(c')
    ensures Tidy(c', b, n, k)
  {
    ReducedTagged(c, c', Servers, b);
    ReducedTagged(c, c', Addresses, b);
    ReducedTagged(c, c', Groups, b);
    ReducedTagged(c, c', Groups, n);
    ReducedAttached(c, c', b, n, k);
    hide Tagged, Attached;
  }

  lemma ReducedAttached(c: CloudState, c': CloudState, b: Tags, n: Tags, k: Owner)
    requires Attached(c, b, n, k) && Reduced(c, c') && Valid(c')
    ensures Attached(c', b, n, k)
  {
    hide NodeOf;
    ReducedTagged(c, c', Groups, b);
    ReducedTagged(c, c', Groups, n);
    forall p | p in c'.attached && p.1 in Tagged(c', Groups, b) ensures p.0 in Tagged(c', Servers, b) {
      assert p.0 in Tagged(c, Servers, b);
    }
  }

  lemma DeleteReduced(c: CloudState, kind: Kind, id: Id, o: Outcome)
    ensures Reduced(c, CloudModel.Delete(c, kind, id, o).cloud)
  {
  }

  lemma DropGroupReduced(c: CloudState, group: Id, rules: Outcome, delete: Outcome)
    ensures Reduced(c, DropGroup(c, group, rules, delete).cloud)
  {
    hide CloudModel.Delete;
    DeleteReduced(c, Groups, group, delete);
  }

  lemma DeleteNodeSSHReduced(c: CloudState, tags: Tags, calls: DeleteNodeSSHCalls)
    ensures Reduced(c, DeleteNodeSSH(c, tags, calls).cloud)
  {
    hide Find, ClusterSelector, DetachAll, DropGroup, Within;
    assert Reduced(c, c) by { SelfReduced(c); }
    var found := Find(c, Groups, tags, calls.find);
    if found.Ok? {
      DetachAllFrame(c, calls.listing, ClusterSelector(tags), found.value, calls.detach);
      var d := DetachAll(c, calls.listing, ClusterSelector(tags), found.value, calls.detach);
      assert Reduced(c, d.cloud);
      DropGroupReduced(d.cloud, found.value, calls.rules, calls.delete);
      ReducedThrough(c, d.cloud, DropGroup(d.cloud, found.value, calls.rules, calls.delete).cloud);
    }
  }

  lemma SelfReduced(c: CloudState)
    ensures Reduced(c, c)
  {
  }

  lemma DismantleReduced(c: CloudState, ids: BastionIDs, calls: DeleteBastionCalls)
    ensures Reduced(c, DismantleBastion(c, ids, calls).cloud)
  {
    hide CloudModel.Delete, DropGroup;
    var d := if ids.server != 0 && ids.group != 0 then Detach(c, ids.server, ids.group, calls.detach)
             else Op(c, Ok(()));
    assert Reduced(c, d.cloud);
    DeleteReduced(d.cloud, Servers, ids.server, calls.deleteServer);
    var s := if ids.server != 0 then DeleteIfThere(d.cloud, Servers, ids.server, calls.deleteServer) else d;
    DeleteReduced(s.cloud, Addresses, ids.address, calls.deleteAddress);
    var a := if ids.address != 0 then DeleteIfThere(s.cloud, Addresses, ids.address, calls.deleteAddress) else s;
    DropGroupReduced(a.cloud, ids.group, calls.rules, calls.deleteGroup);
    SelfReduced(c);
    SelfReduced(d.cloud);
    SelfReduced(s.cloud);
    hide Reduced;
    ReducedThrough(c, d.cloud, s.cloud);
    ReducedThrough(c, s.cloud, a.cloud);
    ReducedThrough(c, a.cloud, DropGroup(a.cloud, ids.group, calls.rules, calls.deleteGroup).cloud);
  }

  lemma DeleteBastionReduced(c: CloudState, tags: Tags, recorded: BastionIDs, calls: DeleteBastionCalls)
    ensures Reduced(c, DeleteBastion(c, tags, recorded, calls).cloud)
  {
    hide ResolveID, DismantleBastion, Reduced;
    SelfReduced(c);
    var server := ResolveID(c, Servers, recorded.server, tags, calls.findServer);
    var address := ResolveID(c, Addresses, recorded.address, tags, calls.findAddress);
    var group := ResolveID(c, Groups, recorded.group, tags, calls.findGroup);
    if server.Ok? && address.Ok? && group.Ok? {
      DismantleReduced(c, BastionIDs(server.value, address.value, group.value), calls);
    }
  }

  // ------------------------------------------------------------------------ making

  /** A new group: no attachment can know it yet. */
  lemma GroupMadeTidy(c: CloudState, tags: Tags, calls: FindOrCreateCalls, b: Tags, n: Tags, k: Owner)
    requires Tidy(c, b, n, k) && Roles(b, n) && (tags == b || tags == n) && Truthful(calls.find)
    ensures Tidy(FindOrCreate(c, Groups, tags, calls).cloud, b, n, k)
  {
    var c' := FindOrCreate(c, Groups, tags, calls).cloud;
    FindOrCreateValid(c, Groups, tags, calls);
    FindOrCreateFrame(c, Groups, tags, calls);
    FindOrCreateUnique(c, Groups, tags, calls);
    OtherGroupsSame(c, tags, calls, b, n);
    GroupMadeAttached(c, tags, calls, b, n, k);
    hide Attached, FindOrCreate, Matches, Valid, Roles;
    TaggedSame(c, c', Servers, b);
    TaggedSame(c, c', Addresses, b);
  }

  lemma OtherGroupsSame(c: CloudState, tags: Tags, calls: FindOrCreateCalls, b: Tags, n: Tags)
    requires Valid(c) && Roles(b, n) && (tags == b || tags == n)
    ensures var c' := FindOrCreate(c, Groups, tags, calls).cloud;
            var other := if tags == b then n else b;
            Tagged(c', Groups, other) == Tagged(c, Groups, other)
  {
    hide Find;
    assert Matches(b, b) && Matches(n, n);
    RolesExclude(b, b, n);
    RolesExclude(n, b, n);
  }

  lemma GroupMadeAttached(c: CloudState, tags: Tags, calls: FindOrCreateCalls, b: Tags, n: Tags, k: Owner)
    requires Valid(c) && Attached(c, b, n, k)
    ensures Attached(FindOrCreate(c, Groups, tags, calls).cloud, b, n, k)
  {
    hide Find, NodeOf, Matches;
    var c' := FindOrCreate(c, Groups, tags, calls).cloud;
    assert c'.attached == c.attached && c'.servers == c.servers;
    assert forall g :: g in c'.groups.items && g != c.groups.nextID ==>
             g in c.groups.items && c'.groups.items[g] == c.groups.items[g];
  }

  lemma AddressMadeTidy(c: CloudState, calls: FindOrCreateCalls, b: Tags, n: Tags, k: Owner)
    requires Tidy(c, b, n, k) && Roles(b, n) && Truthful(calls.find)
    ensures Tidy(FindOrCreate(c, Addresses, b, calls).cloud, b, n, k)
  {
    var c' := FindOrCreate(c, Addresses, b, calls).cloud;
    FindOrCreateValid(c, Addresses, b, calls);
    FindOrCreateFrame(c, Addresses, b, calls);
    FindOrCreateUnique(c, Addresses, b, calls);
    hide FindOrCreate, Matches, Valid, Roles;
    TaggedSame(c, c', Servers, b);
    TaggedSame(c, c', Groups, b);
    TaggedSame(c, c', Groups, n);
  }

  /** A machine's server: not a bastion, and attached to nothing yet. */
  lemma MachineMadeTidy(c: CloudState, tags: Tags, calls: FindOrCreateCalls, b: Tags, n: Tags, k: Owner)
    requires Tidy(c, b, n, k) && !Matches(tags, b)
    ensures Tidy(FindOrCreate(c, Servers, tags, calls).cloud, b, n, k)
  {
    hide Find, NodeOf;
    var c' := FindOrCreate(c, Servers, tags, calls).cloud;
    FindOrCreateValid(c, Servers, tags, calls);
    FindOrCreateFrame(c, Servers, tags, calls);
    assert Tagged(c', Servers, b) == Tagged(c, Servers, b);
    hide FindOrCreate, Unique;
    OldServers(c, tags, calls);
    TaggedSame(c, c', Addresses, b);
    TaggedSame(c, c', Groups, b);
    TaggedSame(c, c', Groups, n);
    UniqueSame(c, c', b, n);
  }

  lemma UniqueSame(c: CloudState, c': CloudState, b: Tags, n: Tags)
    requires Unique(c, b, n)
    requires Tagged(c', Servers, b) == Tagged(c, Servers, b) && Tagged(c', Addresses, b) == Tagged(c, Addresses, b)
    requires Tagged(c', Groups, b) == Tagged(c, Groups, b) && Tagged(c', Groups, n) == Tagged(c, Groups, n)
    ensures Unique(c', b, n)
  {
  }

  lemma OldServers(c: CloudState, tags: Tags, calls: FindOrCreateCalls)
    requires Valid(c)
    ensures var c' := FindOrCreate(c, Servers, tags, calls).cloud;
            forall s :: s in c.servers.items ==> s in c'.servers.items && c'.servers.items[s] == c.servers.items[s]
  {
    hide Find;
  }

  lemma AttachTidy(c: CloudState, server: Id, group: Id, o: Outcome, b: Tags, n: Tags, k: Owner)
    requires Tidy(c, b, n, k) && group < c.groups.nextID
    requires group in Tagged(c, Groups, b) ==> server in Tagged(c, Servers, b)
    requires group in Tagged(c, Groups, n) && server in c.servers.items ==> NodeOf(c.servers.items[server], k)
    ensures Tidy(Attach(c, server, group, o).cloud, b, n, k)
  {
    hide NodeOf, Matches;
    AttachValid(c, server, group, o);
    var c' := Attach(c, server, group, o).cloud;
    TaggedSame(c, c', Servers, b);
    TaggedSame(c, c', Addresses, b);
    TaggedSame(c, c', Groups, b);
    TaggedSame(c, c', Groups, n);
    hide Tagged;
  }

  /** The bastion's server starts out in the bastion's group. */
  lemma BastionServerMadeTidy(c: CloudState, group: Id, calls: FindOrCreateCalls, b: Tags, n: Tags, k: Owner)
    requires Tidy(c, b, n, k) && Roles(b, n) && Truthful(calls.find) && group in Tagged(c, Groups, b)
    ensures Tidy(CreateServerIn(c, b, group, calls).cloud, b, n, k)
  {
    CreateServerInValid(c, b, group, calls);
    var made := FindOrCreate(c, Servers, b, calls).cloud;
    FindOrCreateUnique(c, Servers, b, calls);
    FindOrCreateValid(c, Servers, b, calls);
    FindOrCreateFrame(c, Servers, b, calls);
    BastionServerAttached(c, calls, b, n, k);
    NotNode(c, group, b, n);
    NewServerTagged(c, b, calls);
    TaggedSame(c, made, Addresses, b);
    TaggedSame(c, made, Groups, b);
    TaggedSame(c, made, Groups, n);
    hide FindOrCreate, Matches, Attached, Tagged, Roles, NodeOf;
    if made.servers.nextID != c.servers.nextID {
      GroupKnown(c, group, b);
      AttachTidy(made, c.servers.nextID, group, Works, b, n, k);
    }
  }

  lemma GroupKnown(c: CloudState, group: Id, tags: Tags)
    requires Valid(c) && group in Tagged(c, Groups, tags)
    ensures group < c.groups.nextID
  {
  }

  lemma NotNode(c: CloudState, group: Id, b: Tags, n: Tags)
    requires Roles(b, n)
    ensures !(group in Tagged(c, Groups, b) && group in Tagged(c, Groups, n))
  {
    if group in Tagged(c, Groups, b) && group in Tagged(c, Groups, n) { RolesExclude(c.groups.items[group], b, n); }
  }

  lemma NewServerTagged(c: CloudState, b: Tags, calls: FindOrCreateCalls)
    ensures var c' := FindOrCreate(c, Servers, b, calls).cloud;
            c'.servers.nextID != c.servers.nextID ==> c.servers.nextID in Tagged(c', Servers, b)
  {
    hide Find;
    assert Matches(b, b);
  }

  lemma BastionServerAttached(c: CloudState, calls: FindOrCreateCalls, b: Tags, n: Tags, k: Owner)
    requires Valid(c) && Attached(c, b, n, k)
    ensures Attached(FindOrCreate(c, Servers, b, calls).cloud, b, n, k)
  {
    hide Find, NodeOf, Matches;
    var c' := FindOrCreate(c, Servers, b, calls).cloud;
    OldServers(c, b, calls);
    TaggedSame(c, c', Groups, b);
    TaggedSame(c, c', Groups, n);
    assert forall s :: s in Tagged(c, Servers, b) ==> s in Tagged(c', Servers, b);
  }

  /** EnsureBastion keeps the cloud tidy wherever it stops. */
  lemma EnsureBastionTidy(c: CloudState, network: Id, calls: EnsureBastionCalls, b: Tags, n: Tags, k: Owner)
    requires Tidy(c, b, n, k) && Roles(b, n) && HonestEnsure(calls)
    ensures Tidy(EnsureBastion(c, b, network, calls).cloud, b, n, k)
  {
    hide FindOrCreate, CreateServerIn, Attach, Tidy, Roles, Tagged;
    var group := FindOrCreate(c, Groups, b, calls.group);
    GroupMadeTidy(c, b, calls.group, b, n, k);
    RoleNotEmpty(b, n);
    FindOrCreateUnique(c, Groups, b, calls.group);
    if group.result.Ok? {
      var g := group.result.value;
      var server := CreateServerIn(group.cloud, b, g, calls.server);
      BastionServerMadeTidy(group.cloud, g, calls.server, b, n, k);
      CreateServerInUnique(group.cloud, b, g, calls.server);
      CreateServerInFrame(group.cloud, b, g, calls.server);
      TaggedSame(group.cloud, server.cloud, Groups, b);
      if server.result.Ok? {
        NotNode(server.cloud, g, b, n);
        TidyValid(server.cloud, b, n, k);
        GroupKnown(server.cloud, g, b);
        AttachTidy(server.cloud, server.result.value, g, calls.attach, b, n, k);
        var attach := Attach(server.cloud, server.result.value, g, calls.attach);
        AddressMadeTidy(attach.cloud, calls.address, b, n, k);
      }
    }
  }

  lemma TidyValid(c: CloudState, b: Tags, n: Tags, k: Owner)
    requires Tidy(c, b, n, k)
    ensures Valid(c)
  {
  }

  lemma RoleNotEmpty(b: Tags, n: Tags)
    requires Roles(b, n)
    ensures b != map[] && n != map[]
  {
  }

  /** EnsureNodeSSHAccess for a machine server of the owning Cluster. */
  lemma EnsureNodeSSHTidy(c: CloudState, server: Id, bastionGroup: Id, calls: EnsureNodeSSHCalls, b: Tags, n: Tags,
                          k: Owner)
    requires Tidy(c, b, n, k) && Roles(b, n) && Truthful(calls.group.find)
    requires server in c.servers.items ==> NodeOf(c.servers.items[server], k)
    ensures Tidy(EnsureNodeSSH(c, n, server, bastionGroup, calls).cloud, b, n, k)
  {
    hide FindOrCreate, Attach, Tidy, Roles, Tagged, NodeOf, Matches;
    var group := FindOrCreate(c, Groups, n, calls.group);
    GroupMadeTidy(c, n, calls.group, b, n, k);
    RoleNotEmpty(b, n);
    FindOrCreateUnique(c, Groups, n, calls.group);
    FindOrCreateFrame(c, Groups, n, calls.group);
    if group.result.Ok? {
      var g := group.result.value;
      NotNode(group.cloud, g, b, n);
      TidyValid(group.cloud, b, n, k);
      GroupKnown(group.cloud, g, n);
      AttachTidy(group.cloud, server, g, calls.attach, b, n, k);
    }
  }

  // ------------------------------------------------------------- nothing is reused

  /** Old IDs keep their tags for as long as they live and are never handed out again. */
  predicate Aged(s: Store, s': Store)
  {
    s.nextID <= s'.nextID &&
    forall id :: id in s'.items && id < s.nextID ==> id in s.items && s'.items[id] == s.items[id]
  }

  lemma MadeAged(c: CloudState, tags: Tags, calls: FindOrCreateCalls)
    ensures Aged(c.groups, FindOrCreate(c, Groups, tags, calls).cloud.groups)
  {
    hide Find;
  }

  lemma EnsureBastionAged(c: CloudState, tags: Tags, network: Id, calls: EnsureBastionCalls)
    ensures Aged(c.groups, EnsureBastion(c, tags, network, calls).cloud.groups)
  {
    hide FindOrCreate, CreateServerIn;
    MadeAged(c, tags, calls.group);
    var group := FindOrCreate(c, Groups, tags, calls.group);
    if group.result.Ok? {
      var server := CreateServerIn(group.cloud, tags, group.result.value, calls.server);
      CreateServerInFrame(group.cloud, tags, group.result.value, calls.server);
      if server.result.Ok? {
        var attach := Attach(server.cloud, server.result.value, group.result.value, calls.attach);
        FindOrCreateFrame(attach.cloud, Addresses, tags, calls.address);
      }
    }
  }

  lemma EnsureNodeSSHAged(c: CloudState, tags: Tags, server: Id, bastionGroup: Id, calls: EnsureNodeSSHCalls)
    ensures Aged(c.groups, EnsureNodeSSH(c, tags, server, bastionGroup, calls).cloud.groups)
  {
    hide FindOrCreate;
    MadeAged(c, tags, calls.group);
  }
}
