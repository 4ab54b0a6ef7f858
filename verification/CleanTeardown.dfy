/** Restartability: when every call works, clean-up gets through from whatever state
    earlier attempts left, and exactly what can still block it. */
module CleanTeardown {
  import opened Api
  import opened Labels
  import opened CloudModel
  import opened CloudFrames
  import opened Removal
  import opened ClusterModel
  import opened ClusterTeardown
  import ClusterNetwork

  // ------------------------------------------------------------- node SSH access

  lemma {:induction false} DetachAllWorks(c: CloudState, listing: seq<Id>, selector: Tags, group: Id,
                                          detach: Id -> Outcome)
    requires forall s :: detach(s).Works?
    ensures var op := DetachAll(c, listing, selector, group, detach);
            && op.result.Ok?
            && (forall p :: p in op.cloud.attached <==>
                  p in c.attached &&
                  !(p.1 == group && p.0 in listing && p.0 in c.servers.items &&
                    Matches(c.servers.items[p.0], selector)))
    decreases |listing|
  {
    if listing != [] {
      var d := Detach(c, listing[0], group, detach(listing[0]));
      DetachAllWorks(c, listing[1..], selector, group, detach);
      DetachAllWorks(d.cloud, listing[1..], selector, group, detach);
      assert listing == [listing[0]] + listing[1..];
    }
  }

  /** A step counts as done. */
  predicate Passable(o: Outcome, tolerated: set<ErrorClass>) { o.Works? || o.error in tolerated }

  /** Detaching gets through exactly when every listed server that matches is detached, or
      was: not found and conflict count as done. */
  lemma {:induction false} DetachAllOkIff(c: CloudState, listing: seq<Id>, selector: Tags, group: Id,
                                          detach: Id -> Outcome)
    ensures DetachAll(c, listing, selector, group, detach).result.Ok? <==>
            forall s :: s in listing && s in c.servers.items && Matches(c.servers.items[s], selector) ==>
              Passable(detach(s), {NotFound, Conflict})
    decreases |listing|
  {
    if listing != [] {
      var d := Detach(c, listing[0], group, detach(listing[0]));
      DetachAllOkIff(c, listing[1..], selector, group, detach);
      DetachAllOkIff(d.cloud, listing[1..], selector, group, detach);
      assert listing == [listing[0]] + listing[1..];
    }
  }

  ghost predicate NodeSSHWorks(calls: DeleteNodeSSHCalls, c: CloudState)
  {
    && calls.find.Works? && calls.list.Works? && calls.rules.Works? && calls.delete.Works?
    && (forall s {:trigger calls.detach(s)} :: calls.detach(s).Works?)
    && (forall s :: s in c.servers.items ==> s in calls.listing)
  }

  /** Every server that uses a node-SSH group is one the clean-up can find. */
  predicate Detachable(c: CloudState, tags: Tags)
  {
    forall p :: p in c.attached && p.1 in Tagged(c, Groups, tags) && p.0 in c.servers.items ==>
      Matches(c.servers.items[p.0], ClusterSelector(tags))
  }

  lemma SelectorNotEmpty(tags: Tags)
    requires ManagedBy in tags && tags[ManagedBy] == Provider
    ensures ClusterSelector(tags) != map[]
  {
    assert ManagedBy in ClusterSelector(tags);
  }

  /** Tags that name nothing select nothing: every operation refuses them and leaves the
      cloud alone, and so it does for an empty server or group. */
  lemma EmptySelectorRefused(c: CloudState, kind: Kind, server: Id, group: Id, network: Id, f: FindOrCreateCalls,
                             d: DeleteNodeSSHCalls, n: EnsureNodeSSHCalls, b: EnsureBastionCalls, tags: Tags)
    ensures FindOrCreate(c, kind, map[], f) == Op(c, Err(InvalidInput))
    ensures DeleteNodeSSH(c, map[], d) == Op(c, Err(InvalidInput))
    ensures EnsureBastion(c, map[], network, b) == Op(c, Err(InvalidInput))
    ensures EnsureBastion(c, tags, 0, b) == Op(c, Err(InvalidInput))
    ensures EnsureNodeSSH(c, map[], server, group, n) == Op(c, Err(InvalidInput))
    ensures EnsureNodeSSH(c, tags, 0, group, n) == Op(c, Err(InvalidInput))
    ensures EnsureNodeSSH(c, tags, server, 0, n) == Op(c, Err(InvalidInput))
  {
  }

  /** Tags that name no cluster would select every server; nothing is detached by them. */
  lemma NoClusterNoDetach(c: CloudState, tags: Tags, calls: DeleteNodeSSHCalls)
    requires forall k :: k in {ClusterName, ClusterNamespace, ManagedBy} && k in tags ==> tags[k] == ""
    ensures DeleteNodeSSH(c, tags, calls).cloud == c
  {
    assert ClusterSelector(tags) == map[];
    hide Find, DetachAll, DropGroup, ClusterSelector;
  }

  lemma DropGroupWorks(c: CloudState, group: Id, rules: Outcome, delete: Outcome)
    requires rules.Works? && delete.Works?
    ensures DropGroup(c, group, rules, delete).result.Ok? <==>
            (group !in c.groups.items || forall p :: p in c.attached ==> p.1 != group)
  {
  }

  /** With every call working, DeleteNodeSSHAccess succeeds if and only if at most one
      group carries the tags and each server attached to it matches the selector that
      the tags themselves spell out. */
  lemma {:induction false} NodeSSHRemovedIff(c: CloudState, tags: Tags, calls: DeleteNodeSSHCalls)
    requires Valid(c) && ManagedBy in tags && tags[ManagedBy] == Provider && NodeSSHWorks(calls, c)
    ensures DeleteNodeSSH(c, tags, calls).result.Ok? <==>
            AtMostOne(Tagged(c, Groups, tags)) && Detachable(c, tags)
  {
    hide DetachAll, DropGroup, ClusterSelector;
    SelectorNotEmpty(tags);
    var tagged := Tagged(c, Groups, tags);
    var found := Find(c, Groups, tags, calls.find);
    if found.Ok? {
      FoundIsTheOne(c, Groups, tags, calls.find);
      var g := found.value;
      DetachAllFrame(c, calls.listing, ClusterSelector(tags), g, calls.detach);
      DetachAllWorks(c, calls.listing, ClusterSelector(tags), g, calls.detach);
      var d := DetachAll(c, calls.listing, ClusterSelector(tags), g, calls.detach);
      DropGroupWorks(d.cloud, g, calls.rules, calls.delete);
      assert (forall p :: p in d.cloud.attached ==> p.1 != g) <==> Detachable(c, tags);
    }
  }

  /** The selector is spelled with the StackitCluster's name, while machine servers
      carry the owning Cluster's name: they match only if the two names agree. */
  lemma SelectorOnMachineServer(name: string, namespace: string, extra: Tags,
                                cluster: string, clusterNS: string, m: string, uid: string, labels: Tags)
    requires |name| > 0 && |namespace| > 0
    ensures Matches(MachineTags(cluster, clusterNS, m, uid, labels),
                    ClusterSelector(NodeSSHTags(name, namespace, extra)))
            <==> cluster == name && clusterNS == namespace
  {
    KeysDiffer();
    var sel := ClusterSelector(NodeSSHTags(name, namespace, extra));
    var tags := MachineTags(cluster, clusterNS, m, uid, labels);
    assert NodeSSHTags(name, namespace, extra)[ClusterName] == name;
    assert NodeSSHTags(name, namespace, extra)[ClusterNamespace] == namespace;
    assert ClusterName in sel && sel[ClusterName] == name && tags[ClusterName] == cluster;
    assert ClusterNamespace in sel && sel[ClusterNamespace] == namespace && tags[ClusterNamespace] == clusterNS;
    assert sel.Keys <= {ClusterName, ClusterNamespace, ManagedBy};
  }

  /** So a machine server that got SSH access blocks the removal of that access for as
      long as it exists when a StackitCluster is not named like its Cluster. */
  lemma {:induction false} NamesMustAgree(c: CloudState, name: string, namespace: string, extra: Tags,
                                          cluster: string, m: string, uid: string, labels: Tags,
                                          server: Id, group: Id, calls: DeleteNodeSSHCalls)
    requires |name| > 0 && |namespace| > 0 && cluster != name
    requires var tags := NodeSSHTags(name, namespace, extra);
             && Valid(c) && NodeSSHWorks(calls, c) && group in Tagged(c, Groups, tags)
    requires (server, group) in c.attached && server in c.servers.items
    requires c.servers.items[server] == MachineTags(cluster, namespace, m, uid, labels)
    ensures DeleteNodeSSH(c, NodeSSHTags(name, namespace, extra), calls).result.Err?
  {
    var tags := NodeSSHTags(name, namespace, extra);
    KeysDiffer();
    assert ManagedBy in tags && tags[ManagedBy] == Provider;
    SelectorOnMachineServer(name, namespace, extra, cluster, namespace, m, uid, labels);
    hide DeleteNodeSSH, NodeSSHTags, MachineTags, ClusterSelector, Tagged;
    NodeSSHRemovedIff(c, tags, calls);
    assert !Detachable(c, tags) by {
      var p := (server, group);
      assert p in c.attached && p.1 in Tagged(c, Groups, tags) && p.0 in c.servers.items;
    }
  }

  // --------------------------------------------------------------------- bastion

  predicate BastionWorks(calls: DeleteBastionCalls)
  {
    && calls.findServer.Works? && calls.findAddress.Works? && calls.findGroup.Works?
    && calls.unassign.Works? && calls.detach.Works?
    && calls.deleteServer.Works? && calls.deleteAddress.Works? && calls.rules.Works? && calls.deleteGroup.Works?
  }

  /** Recorded, or at most one to find. */
  ghost predicate Resolvable(recorded: Id, tagged: set<Id>)
  {
    recorded != 0 || AtMostOne(tagged)
  }

  lemma ResolvesIff(c: CloudState, kind: Kind, recorded: Id, tags: Tags)
    requires tags != map[]
    ensures ResolveID(c, kind, recorded, tags, Works).Ok? <==> Resolvable(recorded, Tagged(c, kind, tags))
  {
    hide Tagged;
  }

  /** The group to delete is used by no server but the one to delete. */
  predicate GroupFree(c: CloudState, ids: BastionIDs)
  {
    ids.group in c.groups.items ==> forall p :: p in c.attached && p.1 == ids.group ==> p.0 == ids.server
  }

  lemma DismantleWorks(c: CloudState, ids: BastionIDs, calls: DeleteBastionCalls)
    requires Valid(c) && BastionWorks(calls)
    ensures DismantleBastion(c, ids, calls).result.Ok? <==> ids.group == 0 || GroupFree(c, ids)
  {
    hide DropGroup, CloudModel.Delete;
    var d := if ids.server != 0 && ids.group != 0 then Detach(c, ids.server, ids.group, calls.detach)
             else Op(c, Ok(()));
    var s := if ids.server != 0 then DeleteIfThere(d.cloud, Servers, ids.server, calls.deleteServer) else d;
    ServerDeleteWorks(d.cloud, ids.server);
    var a := if ids.address != 0 then DeleteIfThere(s.cloud, Addresses, ids.address, calls.deleteAddress) else s;
    AddressDeleteWorks(s.cloud, ids.address);
    DropGroupWorks(a.cloud, ids.group, calls.rules, calls.deleteGroup);
    assert a.cloud.groups == c.groups;
    assert forall p :: p in a.cloud.attached && p.1 == ids.group <==>
           p in c.attached && p.1 == ids.group && p.0 != ids.server;
  }

  /** Nothing is deleted before the address is unassigned and the group detached; success
      means that every step counts as done. */
  lemma DismantleOrder(c: CloudState, ids: BastionIDs, calls: DeleteBastionCalls)
    ensures var op := DismantleBastion(c, ids, calls);
            var unassigned := ids.server != 0 && ids.address != 0 ==> Passable(calls.unassign, {NotFound, Conflict});
            var detached := ids.server != 0 && ids.group != 0 ==> Passable(calls.detach, {NotFound, Conflict});
            && (!unassigned ==> op == Op(c, Err(calls.unassign.error)))
            && (unassigned && !detached ==>
                  op.result == Err(calls.detach.error) && op.cloud == c.(attached := op.cloud.attached))
            && (op.result.Ok? ==>
                  && unassigned && detached
                  && (ids.server != 0 ==> Passable(calls.deleteServer, {NotFound}))
                  && (ids.address != 0 ==> Passable(calls.deleteAddress, {NotFound}))
                  && (ids.group != 0 ==>
                        Passable(calls.rules, {NotFound}) && Passable(calls.deleteGroup, {NotFound})))
  {
  }

  lemma ServerDeleteWorks(c: CloudState, server: Id)
    requires forall p :: p in c.attached ==> p.0 in c.servers.items
    ensures var op := DeleteIfThere(c, Servers, server, Works);
            && op.result.Ok? && op.cloud == c.(servers := op.cloud.servers, attached := op.cloud.attached)
            && forall p :: p in op.cloud.attached <==> p in c.attached && p.0 != server
  {
  }

  lemma AddressDeleteWorks(c: CloudState, address: Id)
    ensures var op := DeleteIfThere(c, Addresses, address, Works);
            op.result.Ok? && op.cloud == c.(addresses := op.cloud.addresses)
  {
  }

  ghost predicate BastionUnblocked(c: CloudState, tags: Tags, recorded: BastionIDs)
  {
    && Resolvable(recorded.server, Tagged(c, Servers, tags))
    && Resolvable(recorded.address, Tagged(c, Addresses, tags))
    && Resolvable(recorded.group, Tagged(c, Groups, tags))
    && var server := ResolveID(c, Servers, recorded.server, tags, Works);
       var group := ResolveID(c, Groups, recorded.group, tags, Works);
       server.Ok? && group.Ok? && (group.value != 0 ==> GroupFree(c, BastionIDs(server.value, 0, group.value)))
  }

  /** With every call working, DeleteBastion succeeds if and only if each resource is
      recorded or uniquely tagged and the group is free to go. */
  lemma {:induction false} BastionRemovedIff(c: CloudState, tags: Tags, recorded: BastionIDs, calls: DeleteBastionCalls)
    requires Valid(c) && tags != map[] && BastionWorks(calls)
    ensures DeleteBastion(c, tags, recorded, calls).result.Ok? <==> BastionUnblocked(c, tags, recorded)
  {
    hide ResolveID, DismantleBastion, Tagged, Resolvable;
    ResolvesIff(c, Servers, recorded.server, tags);
    ResolvesIff(c, Addresses, recorded.address, tags);
    ResolvesIff(c, Groups, recorded.group, tags);
    var server := ResolveID(c, Servers, recorded.server, tags, Works);
    var address := ResolveID(c, Addresses, recorded.address, tags, Works);
    var group := ResolveID(c, Groups, recorded.group, tags, Works);
    if server.Ok? && address.Ok? && group.Ok? {
      DismantleWorks(c, BastionIDs(server.value, address.value, group.value), calls);
    }
  }

  // --------------------------------------------------------------- the whole pass

  ghost predicate DeletionWorks(e: Env, c: CloudState)
  {
    && NodeSSHWorks(e.deleteNodeSSH, c) && BastionWorks(e.deleteBastion)
    && e.findNetwork.Works? && e.deleteNetwork.Works? && e.deleteBalancer.Works?
    && BalancerLookupWorks(e)
  }

  /** The load balancers are listed, or the project has no load balancer service. */
  predicate BalancerLookupWorks(e: Env)
  {
    (e.balancer.list.Works? || e.balancer.serviceOff) && e.balancerLabels != map[]
  }

  /** Nothing that any earlier attempt leaves behind: one resource per kind at most
      where none is recorded, and groups used only by servers the pass detaches. */
  ghost predicate Unblocked(spec: Spec, st: Status, c: CloudState, id: Identity, e: Env)
  {
    && BalancerResolvable(st, c, e)
    && AtMostOne(Tagged(c, Groups, NodeTagsOf(spec, id))) && Detachable(c, NodeTagsOf(spec, id))
    && BastionUnblocked(c, BastionTagsOf(spec, id), st.bastion.ids)
    && (spec.network != 0 || Resolvable(st.network, Tagged(c, Networks, ClusterTagsOf(spec, id))))
  }

  /** Recorded, not looked for, or at most one to find. */
  ghost predicate BalancerResolvable(st: Status, c: CloudState, e: Env)
  {
    |st.balancerID| > 0 || e.balancer.serviceOff || AtMostOne(MatchingBalancers(c, e.balancerLabels))
  }

  lemma DropBalancerWorks(st: Status, c: CloudState, e: Env)
    requires BalancerLookupWorks(e) && e.deleteBalancer.Works?
    ensures DropBalancer(st, c, e).go <==> BalancerResolvable(st, c, e)
  {
    hide MatchingBalancers;
  }

  lemma DropNetworkWorks(spec: Spec, st: Status, c: CloudState, id: Identity, e: Env)
    requires e.findNetwork.Works? && e.deleteNetwork.Works?
    ensures DropNetwork(spec, st, c, id, e).go <==>
            spec.network != 0 || Resolvable(st.network, Tagged(c, Networks, ClusterTagsOf(spec, id)))
  {
    hide Tagged, ClusterTagsOf, ResolveID;
    RoleTags(spec, id);
    ResolvesIff(c, Networks, st.network, ClusterTagsOf(spec, id));
  }

  lemma {:induction false} DetachAllKeepsOthers(c: CloudState, listing: seq<Id>, selector: Tags, group: Id,
                                                detach: Id -> Outcome)
    ensures forall p :: p in c.attached && p.1 != group ==>
              p in DetachAll(c, listing, selector, group, detach).cloud.attached
    decreases |listing|
  {
    if listing != [] {
      var d := Detach(c, listing[0], group, detach(listing[0]));
      DetachAllKeepsOthers(c, listing[1..], selector, group, detach);
      DetachAllKeepsOthers(d.cloud, listing[1..], selector, group, detach);
    }
  }

  /** Attachments to other groups are none of its business. */
  lemma NodeSSHKeepsOthers(c: CloudState, tags: Tags, calls: DeleteNodeSSHCalls)
    requires tags != map[]
    ensures forall p :: p in c.attached && p.1 !in Tagged(c, Groups, tags) ==>
              p in DeleteNodeSSH(c, tags, calls).cloud.attached
  {
    hide Find, ClusterSelector, CloudModel.Delete, DetachAll, Tagged;
    FoundIsTheOne(c, Groups, tags, calls.find);
    var found := Find(c, Groups, tags, calls.find);
    if found.Ok? {
      DetachAllKeepsOthers(c, calls.listing, ClusterSelector(tags), found.value, calls.detach);
      var d := DetachAll(c, calls.listing, ClusterSelector(tags), found.value, calls.detach);
      GroupDeleteKeepsAttached(d.cloud, found.value, calls.delete);
    }
  }

  lemma GroupDeleteKeepsAttached(c: CloudState, group: Id, o: Outcome)
    ensures CloudModel.Delete(c, Groups, group, o).cloud.attached == c.attached
  {
  }

  /** Removing node SSH access neither blocks nor frees the bastion, unless the bastion
      record names a node-SSH group. */
  lemma NodeSSHKeepsUnblocked(spec: Spec, c: CloudState, id: Identity, recorded: BastionIDs, calls: DeleteNodeSSHCalls)
    requires recorded.group !in Tagged(c, Groups, NodeTagsOf(spec, id))
    ensures var c' := DeleteNodeSSH(c, NodeTagsOf(spec, id), calls).cloud;
            BastionUnblocked(c', BastionTagsOf(spec, id), recorded) <==>
            BastionUnblocked(c, BastionTagsOf(spec, id), recorded)
  {
    var b, n := BastionTagsOf(spec, id), NodeTagsOf(spec, id);
    RoleTags(spec, id);
    forall g | g in Tagged(c, Groups, b) ensures g !in Tagged(c, Groups, n) {
      RolesExclude(c.groups.items[g], b, n);
    }
    hide DeleteNodeSSH, BastionTagsOf, NodeTagsOf, Tagged, AtMostOne;
    var c' := DeleteNodeSSH(c, n, calls).cloud;
    NodeSSHKeepsBastion(spec, c, id, calls);
    NodeSSHKeepsOthers(c, n, calls);
    DeleteNodeSSHAttached(c, n, calls);
    DeleteNodeSSHItems(c, n, calls);
    FoundIsTheOne(c, Groups, b, Works);
    assert ResolveID(c', Servers, recorded.server, b, Works) == ResolveID(c, Servers, recorded.server, b, Works);
    assert ResolveID(c', Groups, recorded.group, b, Works) == ResolveID(c, Groups, recorded.group, b, Works);
    var group := ResolveID(c, Groups, recorded.group, b, Works);
    if group.Ok? && group.value != 0 {
      assert group.value !in Tagged(c, Groups, n);
      assert group.value in c'.groups.items <==> group.value in c.groups.items;
    }
    hide ResolveID, Find;
  }

  lemma DeleteNodeSSHAttached(c: CloudState, tags: Tags, calls: DeleteNodeSSHCalls)
    ensures DeleteNodeSSH(c, tags, calls).cloud.attached <= c.attached
  {
    hide Find, ClusterSelector, CloudModel.Delete, DetachAll;
    var found := Find(c, Groups, tags, calls.find);
    if found.Ok? {
      DetachAllFrame(c, calls.listing, ClusterSelector(tags), found.value, calls.detach);
      var d := DetachAll(c, calls.listing, ClusterSelector(tags), found.value, calls.detach);
      DeleteFrame(d.cloud, Groups, found.value, calls.delete);
    }
  }

  /** With every call working, both removals get through if and only if neither is
      blocked. */
  lemma RemoveBastionWorks(spec: Spec, st: Status, c: CloudState, id: Identity, e: Env, tolerated: set<ErrorClass>)
    requires tolerated <= {NotFound} && Valid(c) && NodeSSHWorks(e.deleteNodeSSH, c) && BastionWorks(e.deleteBastion)
    requires st.bastion.ids.group !in Tagged(c, Groups, NodeTagsOf(spec, id))
    ensures RemoveBastion(spec, st, c, id, e, tolerated).result.Ok? <==>
            && AtMostOne(Tagged(c, Groups, NodeTagsOf(spec, id))) && Detachable(c, NodeTagsOf(spec, id))
            && BastionUnblocked(c, BastionTagsOf(spec, id), st.bastion.ids)
  {
    NodeTagsManaged(spec, id);
    RoleTags(spec, id);
    hide DeleteNodeSSH, DeleteBastion, BastionTagsOf, NodeTagsOf, Tagged, BastionUnblocked, Detachable, AtMostOne;
    NodeSSHRemovedIff(c, NodeTagsOf(spec, id), e.deleteNodeSSH);
    DeleteNodeSSHNeverNotFound(c, NodeTagsOf(spec, id), e.deleteNodeSSH);
    var node := DeleteNodeSSH(c, NodeTagsOf(spec, id), e.deleteNodeSSH);
    NodeSSHKeepsUnblocked(spec, c, id, st.bastion.ids, e.deleteNodeSSH);
    DeleteNodeSSHFrame(c, NodeTagsOf(spec, id), e.deleteNodeSSH);
    DeleteNodeSSHItems(c, NodeTagsOf(spec, id), e.deleteNodeSSH);
    DeleteNodeSSHAttached(c, NodeTagsOf(spec, id), e.deleteNodeSSH);
    BastionRemovedIff(node.cloud, BastionTagsOf(spec, id), st.bastion.ids, e.deleteBastion);
    DeleteBastionNeverNotFound(node.cloud, BastionTagsOf(spec, id), st.bastion.ids, e.deleteBastion);
  }

  lemma NodeTagsManaged(spec: Spec, id: Identity)
    ensures ManagedBy in NodeTagsOf(spec, id) && NodeTagsOf(spec, id)[ManagedBy] == Provider
  {
    KeysDiffer();
  }

  /** Restartability: no matter which resources are already gone or which IDs were
      lost, a deletion pass whose calls all work reaches the end and removes the
      finalizer if and only if the state is unblocked. */
  lemma {:induction false} CleanTeardownFinishesIff(spec: Spec, st: Status, c: CloudState, id: Identity, e: Env)
    requires Valid(c) && DeletionWorks(e, c) && st.bastion.ids.group !in Tagged(c, Groups, NodeTagsOf(spec, id))
    requires e.machinesListed && |e.machines| == 0 && e.client.Built?
    ensures ClusterModel.Delete(spec, st, c, id, e).go <==> Unblocked(spec, st, c, id, e)
  {
    hide DropBalancer, RemoveBastion, DropNetwork, Tagged, MatchingBalancers, ClusterTagsOf, NodeTagsOf, BastionTagsOf;
    hide BastionUnblocked, Detachable, Resolvable, NodeSSHWorks, BastionWorks, AtMostOne, BalancerResolvable;
    DropBalancerWorks(st, c, e);
    var s1 := DropBalancer(st, c, e);
    ClusterNetwork.DropBalancerFrame(st, c, e);
    UnblockedIgnoresBalancers(spec, st, c, s1.cloud, id, e);
    RemoveBastionWorks(spec, s1.status, s1.cloud, id, e, {NotFound});
    var s2 := DropBastion(spec, s1.status, s1.cloud, id, e);
    ClusterNetwork.DropBastionFrame(spec, s1.status, s1.cloud, id, e);
    DropNetworkWorks(spec, s2.status, s2.cloud, id, e);
    TaggedNetworks(c, s2.cloud, ClusterTagsOf(spec, id));
  }

  lemma TaggedNetworks(c: CloudState, c': CloudState, tags: Tags)
    requires c'.networks == c.networks
    ensures Tagged(c', Networks, tags) == Tagged(c, Networks, tags)
  {
  }

  lemma UnblockedIgnoresBalancers(spec: Spec, st: Status, c: CloudState, c': CloudState, id: Identity, e: Env)
    requires c' == c.(balancers := c'.balancers)
    ensures Valid(c') == Valid(c) && NodeSSHWorks(e.deleteNodeSSH, c') == NodeSSHWorks(e.deleteNodeSSH, c)
    ensures Tagged(c', Groups, NodeTagsOf(spec, id)) == Tagged(c, Groups, NodeTagsOf(spec, id))
    ensures Detachable(c', NodeTagsOf(spec, id)) == Detachable(c, NodeTagsOf(spec, id))
    ensures BastionUnblocked(c', BastionTagsOf(spec, id), st.bastion.ids) ==
            BastionUnblocked(c, BastionTagsOf(spec, id), st.bastion.ids)
  {
    hide NodeTagsOf, BastionTagsOf, ClusterSelector, Matches;
  }

  /** Networks and load balancers do not matter for the removal of the bastion. */
  lemma SameRemoval(spec: Spec, c: CloudState, c': CloudState, id: Identity, ids: BastionIDs, d: Env)
    requires c' == c.(networks := c'.networks, balancers := c'.balancers)
    ensures NodeSSHWorks(d.deleteNodeSSH, c') == NodeSSHWorks(d.deleteNodeSSH, c)
    ensures Tagged(c', Groups, NodeTagsOf(spec, id)) == Tagged(c, Groups, NodeTagsOf(spec, id))
    ensures Detachable(c', NodeTagsOf(spec, id)) == Detachable(c, NodeTagsOf(spec, id))
    ensures BastionUnblocked(c', BastionTagsOf(spec, id), ids) == BastionUnblocked(c, BastionTagsOf(spec, id), ids)
  {
    hide NodeTagsOf, BastionTagsOf, ClusterSelector, Matches;
  }
}
