/** The provider's view of the STACKIT cloud as values: four collections of tagged
    resources, group attachments and load balancers, and what each client operation
    of cloud/sdk_client.go does to them for every outcome of every API call. */
module CloudModel {
  import opened Api
  import opened Labels
  import TargetPool

  datatype Kind = Servers | Networks | Addresses | Groups

  /** IDs in a store are handed out in order and never reused. */
  datatype Store = Store(items: map<Id, Tags>, nextID: Id)

  datatype Balancer = Balancer(labels: Tags, port: int, pool: seq<TargetPool.Target>)

  datatype CloudState = CloudState(
    servers: Store, networks: Store, addresses: Store, groups: Store,
    attached: set<(Id, Id)>, // (server, security group)
    balancers: map<string, Balancer>) // a load balancer's ID is its name

  datatype Op<+T> = Op(cloud: CloudState, result: Result<T>)

  function StoreOf(c: CloudState, kind: Kind): Store
  {
    match kind
    case Servers => c.servers
    case Networks => c.networks
    case Addresses => c.addresses
    case Groups => c.groups
  }

  function WithStore(c: CloudState, kind: Kind, s: Store): CloudState
  {
    match kind
    case Servers => c.(servers := s)
    case Networks => c.(networks := s)
    case Addresses => c.(addresses := s)
    case Groups => c.(groups := s)
  }

  ghost predicate ValidStore(s: Store)
  {
    0 < s.nextID && forall id :: id in s.items ==> 0 < id < s.nextID
  }

  ghost predicate Valid(c: CloudState)
  {
    && ValidStore(c.servers) && ValidStore(c.networks) && ValidStore(c.addresses) && ValidStore(c.groups)
    && (forall p :: p in c.attached ==> p.0 in c.servers.items)
  }

  // ------------------------------------------------------------- lookup by tags

  function Matching(items: map<Id, Tags>, selector: Tags): set<Id>
  {
    set id | id in items && Matches(items[id], selector)
  }

  /** IDs of the resources of one kind that carry the tags. */
  function Tagged(c: CloudState, kind: Kind, tags: Tags): set<Id>
  {
    Matching(StoreOf(c, kind).items, tags)
  }

  ghost predicate AtMostOne<K(!new)>(s: set<K>)
  {
    forall a, b :: a in s && b in s ==> a == b
  }

  /** None found, several found, or the one. */
  ghost function Only<K(!new)>(s: set<K>): Result<K>
  {
    if s == {} then Err(NotFound)
    else if !AtMostOne(s) then Err(Conflict)
    else var x :| x in s; Ok(x)
  }

  ghost function Find(c: CloudState, kind: Kind, tags: Tags, o: Outcome): Result<Id>
  {
    if tags == map[] then Err(InvalidInput)
    else if !o.Works? then Err(o.error)
    else Only(Tagged(c, kind, tags))
  }

  ghost function Get(c: CloudState, kind: Kind, id: Id, o: Outcome): Result<Id>
  {
    if !o.Works? then Err(o.error)
    else if id in StoreOf(c, kind).items then Ok(id) else Err(NotFound)
  }

  // ------------------------------------------------------------ create and delete

  datatype FindOrCreateCalls = FindOrCreateCalls(find: Outcome, create: Outcome)

  function Create(c: CloudState, kind: Kind, tags: Tags, o: Outcome): Op<Id>
  {
    if o.Rejected? then Op(c, Err(o.error))
    else
      var s := StoreOf(c, kind);
      Op(WithStore(c, kind, Store(s.items[s.nextID := tags], s.nextID + 1)),
         if o.Works? then Ok(s.nextID) else Err(o.error))
  }

  /** CreateServer, CreateNetwork, ensure*SecurityGroup and ensurePublicIP share this shape. */
  ghost function FindOrCreate(c: CloudState, kind: Kind, tags: Tags, calls: FindOrCreateCalls): Op<Id>
  {
    var found := Find(c, kind, tags, calls.find);
    if found == Err(NotFound) then Create(c, kind, tags, calls.create) else Op(c, found)
  }

  /** A group that is still attached cannot go; a server takes its attachments along. */
  ghost function Delete(c: CloudState, kind: Kind, id: Id, o: Outcome): Op<()>
  {
    var s := StoreOf(c, kind);
    if o.Rejected? then Op(c, Err(o.error))
    else if id !in s.items then Op(c, Err(if o.Works? then NotFound else o.error))
    else if kind.Groups? && (exists p :: p in c.attached && p.1 == id) then Op(c, Err(Conflict))
    else
      var attached := if kind.Servers? then set p | p in c.attached && p.0 != id else c.attached;
      Op(WithStore(c, kind, Store(s.items - {id}, s.nextID)).(attached := attached),
         if o.Works? then Ok(()) else Err(o.error))
  }

  predicate Tolerates(r: Result<()>, tolerated: set<ErrorClass>)
  {
    r.Ok? || r.error in tolerated
  }

  /** The caller's view of a call some of whose errors do not count. */
  function Forgive(o: Op<()>, tolerated: set<ErrorClass>): Op<()>
  {
    if Tolerates(o.result, tolerated) then Op(o.cloud, Ok(())) else o
  }

  ghost function DeleteIfThere(c: CloudState, kind: Kind, id: Id, o: Outcome): Op<()>
  {
    Forgive(Delete(c, kind, id, o), {NotFound})
  }

  /** addSecurityGroupToServer. */
  function Attach(c: CloudState, server: Id, group: Id, o: Outcome): Op<()>
  {
    var after := if o.Rejected? || server !in c.servers.items then c
                 else c.(attached := c.attached + {(server, group)});
    Forgive(Op(after, if o.Works? then Ok(()) else Err(o.error)), {Conflict, InvalidInput, NotFound})
  }

  function Detach(c: CloudState, server: Id, group: Id, o: Outcome): Op<()>
  {
    var after := if o.Rejected? then c else c.(attached := c.attached - {(server, group)});
    Forgive(Op(after, if o.Works? then Ok(()) else Err(o.error)), {NotFound, Conflict})
  }

  /** Listing and deleting the rules of a group; a missing group has none. */
  function ClearRules(c: CloudState, o: Outcome): Op<()>
  {
    Forgive(Op(c, if o.Works? then Ok(()) else Err(o.error)), {NotFound})
  }

  // ------------------------------------------------------------- node SSH access

  datatype EnsureNodeSSHCalls = EnsureNodeSSHCalls(group: FindOrCreateCalls, rule: Outcome, attach: Outcome)

  ghost function EnsureNodeSSH(c: CloudState, tags: Tags, server: Id, bastionGroup: Id,
                               calls: EnsureNodeSSHCalls): Op<Id>
  {
    if server == 0 || bastionGroup == 0 || tags == map[] then Op(c, Err(InvalidInput))
    else
      var group := FindOrCreate(c, Groups, tags, calls.group);
      if group.result.Err? then group
      else if !calls.rule.Works? then Op(group.cloud, Err(calls.rule.error))
      else
        var a := Attach(group.cloud, server, group.result.value, calls.attach);
        Op(a.cloud, if a.result.Ok? then group.result else Err(a.result.error))
  }

  /** listing is the order in which the API returned all servers. */
  datatype DeleteNodeSSHCalls = DeleteNodeSSHCalls(
    find: Outcome, list: Outcome, listing: seq<Id>, detach: Id -> Outcome, rules: Outcome, delete: Outcome)

  /** clusterServerSelectorFromTags. */
  function ClusterSelector(tags: Tags): Tags
  {
    map k | k in {ClusterName, ClusterNamespace, ManagedBy} && k in tags && tags[k] != "" :: tags[k]
  }

  function DetachAll(c: CloudState, listing: seq<Id>, selector: Tags, group: Id, detach: Id -> Outcome): Op<()>
    decreases |listing|
  {
    if listing == [] then Op(c, Ok(()))
    else if listing[0] !in c.servers.items || !Matches(c.servers.items[listing[0]], selector)
    then DetachAll(c, listing[1..], selector, group, detach)
    else
      var d := Detach(c, listing[0], group, detach(listing[0]));
      if d.result.Err? then d else DetachAll(d.cloud, listing[1..], selector, group, detach)
  }

  ghost function DeleteNodeSSH(c: CloudState, tags: Tags, calls: DeleteNodeSSHCalls): Op<()>
  {
    var found := Find(c, Groups, tags, calls.find);
    if found == Err(NotFound) then Op(c, Ok(()))
    else if found.Err? then Op(c, Err(found.error))
    else if ClusterSelector(tags) == map[] then Op(c, Err(InvalidInput))
    else if !calls.list.Works? then Op(c, Err(calls.list.error))
    else
      var d := DetachAll(c, calls.listing, ClusterSelector(tags), found.value, calls.detach);
      if d.result.Err? then d else DropGroup(d.cloud, found.value, calls.rules, calls.delete)
  }

  ghost function DropGroup(c: CloudState, group: Id, rules: Outcome, delete: Outcome): Op<()>
  {
    var r := ClearRules(c, rules);
    if r.result.Err? then r else DeleteIfThere(r.cloud, Groups, group, delete)
  }

  // --------------------------------------------------------------------- bastion

  datatype BastionIDs = BastionIDs(server: Id, address: Id, group: Id)

  datatype EnsureBastionCalls = EnsureBastionCalls(
    group: FindOrCreateCalls, rules: Outcome, server: FindOrCreateCalls, attach: Outcome,
    address: FindOrCreateCalls, unassigned: bool, assign: Outcome, read: Outcome)

  /** CreateServer with a security group in its payload: a new server starts out attached. */
  ghost function CreateServerIn(c: CloudState, tags: Tags, group: Id, calls: FindOrCreateCalls): Op<Id>
  {
    var op := FindOrCreate(c, Servers, tags, calls);
    if op.cloud.servers.nextID == c.servers.nextID then op
    else op.(cloud := op.cloud.(attached := op.cloud.attached + {(c.servers.nextID, group)}))
  }

  ghost function EnsureBastion(c: CloudState, tags: Tags, network: Id, calls: EnsureBastionCalls): Op<BastionIDs>
  {
    if network == 0 || tags == map[] then Op(c, Err(InvalidInput))
    else
      var group := FindOrCreate(c, Groups, tags, calls.group);
      if group.result.Err? then Op(group.cloud, Err(group.result.error))
      else if !calls.rules.Works? then Op(group.cloud, Err(calls.rules.error))
      else
        var server := CreateServerIn(group.cloud, tags, group.result.value, calls.server);
        if server.result.Err? then Op(server.cloud, Err(server.result.error))
        else
          var attach := Attach(server.cloud, server.result.value, group.result.value, calls.attach);
          if attach.result.Err? then Op(attach.cloud, Err(attach.result.error))
          else
            var address := FindOrCreate(attach.cloud, Addresses, tags, calls.address);
            if address.result.Err? then Op(address.cloud, Err(address.result.error))
            else if calls.unassigned && !calls.assign.Works? && calls.assign.error != Conflict
            then Op(address.cloud, Err(calls.assign.error))
            else if calls.unassigned && !calls.read.Works? then Op(address.cloud, Err(calls.read.error))
            else Op(address.cloud, Ok(BastionIDs(server.result.value, address.result.value, group.result.value)))
  }

  datatype DeleteBastionCalls = DeleteBastionCalls(
    findServer: Outcome, findAddress: Outcome, findGroup: Outcome, unassign: Outcome, detach: Outcome,
    deleteServer: Outcome, deleteAddress: Outcome, rules: Outcome, deleteGroup: Outcome)

  /** The recorded ID, else the tagged resource, else none (0). */
  ghost function ResolveID(c: CloudState, kind: Kind, recorded: Id, tags: Tags, o: Outcome): Result<Id>
  {
    if recorded != 0 then Ok(recorded)
    else
      var found := Find(c, kind, tags, o);
      if found == Err(NotFound) then Ok(0) else found
  }

  ghost function DeleteBastion(c: CloudState, tags: Tags, recorded: BastionIDs, calls: DeleteBastionCalls): Op<()>
  {
    var server := ResolveID(c, Servers, recorded.server, tags, calls.findServer);
    var address := ResolveID(c, Addresses, recorded.address, tags, calls.findAddress);
    var group := ResolveID(c, Groups, recorded.group, tags, calls.findGroup);
    if server.Err? then Op(c, Err(server.error))
    else if address.Err? then Op(c, Err(address.error))
    else if group.Err? then Op(c, Err(group.error))
    else DismantleBastion(c, BastionIDs(server.value, address.value, group.value), calls)
  }

  ghost function DismantleBastion(c: CloudState, ids: BastionIDs, calls: DeleteBastionCalls): Op<()>
  {
    if ids.server != 0 && ids.address != 0 && !calls.unassign.Works? && calls.unassign.error !in {NotFound, Conflict}
    then Op(c, Err(calls.unassign.error))
    else
      var d := if ids.server != 0 && ids.group != 0 then Detach(c, ids.server, ids.group, calls.detach)
               else Op(c, Ok(()));
      if d.result.Err? then d
      else
        var s := if ids.server != 0 then DeleteIfThere(d.cloud, Servers, ids.server, calls.deleteServer) else d;
        if s.result.Err? then s
        else
          var a := if ids.address != 0 then DeleteIfThere(s.cloud, Addresses, ids.address, calls.deleteAddress) else s;
          if a.result.Err? || ids.group == 0 then a
          else DropGroup(a.cloud, ids.group, calls.rules, calls.deleteGroup)
  }

  // -------------------------------------------------------------- load balancers

  /** serviceOff: the listing is refused with "Service not enabled", read as no load balancer. */
  datatype EnsureBalancerCalls = EnsureBalancerCalls(list: Outcome, serviceOff: bool, create: Outcome)

  function MatchingBalancers(c: CloudState, labels: Tags): set<string>
  {
    set name | name in c.balancers && MapContains(c.balancers[name].labels, labels)
  }

  ghost function FindBalancer(c: CloudState, labels: Tags, list: Outcome, serviceOff: bool): Result<string>
  {
    if labels == map[] then Err(InvalidInput)
    else if serviceOff then Err(NotFound)
    else if !list.Works? then Err(list.error)
    else Only(MatchingBalancers(c, labels))
  }

  const DefaultPlaceholder := TargetPool.Target("capi-bootstrap-placeholder", "10.0.0.1")

  ghost function EnsureBalancer(c: CloudState, name: string, labels: Tags, port: int, seed: seq<TargetPool.Target>,
                                calls: EnsureBalancerCalls): Op<string>
  {
    var found := FindBalancer(c, labels, calls.list, calls.serviceOff);
    if found != Err(NotFound) then Op(c, found)
    else if calls.create.Rejected? then Op(c, Err(calls.create.error))
    else if name in c.balancers then Op(c, Err(Conflict))
    else
      var pool := if seed == [] then [DefaultPlaceholder] else seed;
      Op(c.(balancers := c.balancers[name := Balancer(labels, port, pool)]),
         if calls.create.Works? then Ok(name) else Err(calls.create.error))
  }

  datatype SetTargetsCalls = SetTargetsCalls(get: Outcome, update: Outcome)

  predicate GoodInput(targets: seq<TargetPool.Target>)
  {
    targets != [] && forall t :: t in targets ==> |t.name| > 0 && |t.ip| > 0
  }

  function SetTargets(c: CloudState, name: string, port: int, targets: seq<TargetPool.Target>,
                      calls: SetTargetsCalls): Op<()>
  {
    if |name| == 0 || port <= 0 || !GoodInput(targets) then Op(c, Err(InvalidInput))
    else if !calls.get.Works? then Op(c, Err(calls.get.error))
    else if name !in c.balancers then Op(c, Err(NotFound))
    else
      var b := c.balancers[name];
      if b.port == port && multiset(b.pool) == multiset(targets) then Op(c, Ok(()))
      else if calls.update.Rejected? then Op(c, Err(calls.update.error))
      else Op(c.(balancers := c.balancers[name := b.(port := port, pool := targets)]),
              if calls.update.Works? then Ok(()) else Err(calls.update.error))
  }

  /** loadbalancer.ResolveID: "" when there is none. */
  ghost function ResolveBalancer(c: CloudState, recorded: string, labels: Tags, list: Outcome,
                                 serviceOff: bool): Result<string>
  {
    if |recorded| > 0 then Ok(recorded)
    else
      var found := FindBalancer(c, labels, list, serviceOff);
      if !list.Works? && !serviceOff && labels != map[] then Err(list.error)
      else if found == Err(NotFound) then Ok("") else found
  }

  function DeleteBalancer(c: CloudState, name: string, o: Outcome): Op<()>
  {
    if o.Rejected? then Op(c, Err(o.error))
    else if name !in c.balancers then Op(c, Err(if o.Works? then NotFound else o.error))
    else Op(c.(balancers := c.balancers - {name}), if o.Works? then Ok(()) else Err(o.error))
  }
}
