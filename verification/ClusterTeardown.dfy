/** Cluster deletion: what a pass that removes the finalizer leaves behind, and when
    a pass without failures gets that far. */
module ClusterTeardown {
  import opened Api
  import opened Labels
  import opened CloudModel
  import opened CloudFrames
  import opened Removal
  import opened ClusterModel
  import ClusterNetwork

  // ------------------------------------------------------------------- what is left

  predicate HonestRemoval(e: Env)
  {
    HonestNodeSSH(e.deleteNodeSSH) && HonestBastion(e.deleteBastion)
  }

  lemma RoleTags(spec: Spec, id: Identity)
    ensures BastionTagsOf(spec, id) != map[] && NodeTagsOf(spec, id) != map[] && ClusterTagsOf(spec, id) != map[]
    ensures ResourceRole in BastionTagsOf(spec, id) && BastionTagsOf(spec, id)[ResourceRole] == RoleBastion
    ensures ResourceRole in NodeTagsOf(spec, id) && NodeTagsOf(spec, id)[ResourceRole] == RoleNodeSSH
  {
    assert ManagedBy in ClusterTagsOf(spec, id);
    assert ResourceRole in BastionTagsOf(spec, id) && ResourceRole in NodeTagsOf(spec, id);
  }

  /** Removing the node-SSH group does not touch what carries the bastion role. */
  lemma NodeSSHKeepsBastion(spec: Spec, c: CloudState, id: Identity, calls: DeleteNodeSSHCalls)
    ensures var c' := DeleteNodeSSH(c, NodeTagsOf(spec, id), calls).cloud;
            && Tagged(c', Servers, BastionTagsOf(spec, id)) == Tagged(c, Servers, BastionTagsOf(spec, id))
            && Tagged(c', Addresses, BastionTagsOf(spec, id)) == Tagged(c, Addresses, BastionTagsOf(spec, id))
            && Tagged(c', Groups, BastionTagsOf(spec, id)) == Tagged(c, Groups, BastionTagsOf(spec, id))
  {
    hide DeleteNodeSSH, BastionTagsOf, NodeTagsOf;
    RoleTags(spec, id);
    var node, bastion := NodeTagsOf(spec, id), BastionTagsOf(spec, id);
    DeleteNodeSSHFrame(c, node, calls);
    DeleteNodeSSHItems(c, node, calls);
    var c' := DeleteNodeSSH(c, node, calls).cloud;
    if c'.groups.items != c.groups.items {
      var g :| g in Tagged(c, Groups, node) && c'.groups.items == c.groups.items - {g};
      RolesExclude(c.groups.items[g], bastion, node);
      TaggedAfter(c, c', Groups, g, bastion);
    }
  }

  /** Nothing denies the node-SSH group, or it is the group that the bastion record
      names and so goes with the bastion. */
  predicate NodeCleared(spec: Spec, st: Status, c: CloudState, id: Identity, e: Env)
  {
    var tagged := Tagged(c, Groups, NodeTagsOf(spec, id));
    || NodeAnswered(tagged, e.deleteNodeSSH)
    || (tagged <= {st.bastion.ids.group} && !Pretends(e.deleteBastion.deleteGroup))
  }

  /** RemoveBastion, when it succeeds: exactly when no node-SSH group is left, and
      exactly when no bastion resource is. */
  lemma {:induction false} RemovedBastionIff(spec: Spec, st: Status, c: CloudState, id: Identity, e: Env,
                                             tolerated: set<ErrorClass>)
    requires Valid(c) && tolerated <= {NotFound}
    requires RemoveBastion(spec, st, c, id, e, tolerated).result.Ok?
    ensures var c' := RemoveBastion(spec, st, c, id, e, tolerated).cloud;
            var b, ids := BastionTagsOf(spec, id), st.bastion.ids;
            && (Tagged(c', Groups, NodeTagsOf(spec, id)) == {} <==> NodeCleared(spec, st, c, id, e))
            && (BastionGone(c', b) <==> BastionCovered(c, b, ids) && BastionAnswered(c, b, ids, e.deleteBastion))
  {
    hide DeleteNodeSSH, DeleteBastion, BastionTagsOf, NodeTagsOf, Tagged, LeftOf;
    RoleTags(spec, id);
    var nodeTags, tags := NodeTagsOf(spec, id), BastionTagsOf(spec, id);
    var node := DeleteNodeSSH(c, nodeTags, e.deleteNodeSSH);
    DeleteNodeSSHItems(c, nodeTags, e.deleteNodeSSH);
    DeleteNodeSSHFrame(c, nodeTags, e.deleteNodeSSH);
    NodeSSHKeepsBastion(spec, c, id, e.deleteNodeSSH);
    DeleteBastionNeverNotFound(node.cloud, tags, st.bastion.ids, e.deleteBastion);
    DeletedBastionGoneIff(node.cloud, tags, st.bastion.ids, e.deleteBastion);
    RolesDisjoint(node.cloud, tags, nodeTags);
    DeletedBastionGroups(node.cloud, tags, st.bastion.ids, e.deleteBastion, nodeTags);
    NodeLeft(spec, st, c, id, e);
  }

  lemma RolesDisjoint(c: CloudState, bastion: Tags, node: Tags)
    requires ResourceRole in bastion && bastion[ResourceRole] == RoleBastion
    requires ResourceRole in node && node[ResourceRole] == RoleNodeSSH
    ensures Tagged(c, Groups, bastion) !! Tagged(c, Groups, node)
  {
    forall g | g in Tagged(c, Groups, bastion) ensures g !in Tagged(c, Groups, node) {
      RolesExclude(c.groups.items[g], bastion, node);
    }
  }

  /** Of the node-SSH groups, deleting the bastion takes away the one it records. */
  lemma NodeLeft(spec: Spec, st: Status, c: CloudState, id: Identity, e: Env)
    ensures var n := NodeTagsOf(spec, id);
            var node := DeleteNodeSSH(c, n, e.deleteNodeSSH);
            node.result.Ok? || node.result.error == NotFound ==>
              (LeftOf(Tagged(node.cloud, Groups, n), st.bastion.ids.group, e.deleteBastion.deleteGroup) == {} <==>
                 NodeCleared(spec, st, c, id, e))
  {
    RoleTags(spec, id);
    var n := NodeTagsOf(spec, id);
    var node := DeleteNodeSSH(c, n, e.deleteNodeSSH);
    DeleteNodeSSHItems(c, n, e.deleteNodeSSH);
    NodeAllOrNothing(c, n, e.deleteNodeSSH);
    hide DeleteNodeSSH, NodeTagsOf, Tagged;
  }

  /** DeleteNodeSSHAccess, if nothing else fails, removes all tagged groups or none. */
  lemma NodeAllOrNothing(c: CloudState, tags: Tags, calls: DeleteNodeSSHCalls)
    requires tags != map[]
    ensures var t' := Tagged(DeleteNodeSSH(c, tags, calls).cloud, Groups, tags);
            t' == Tagged(c, Groups, tags) || t' == {}
  {
    hide Find, DropGroup, DetachAll, ClusterSelector, Tagged;
    FoundIsTheOne(c, Groups, tags, calls.find);
    var found := Find(c, Groups, tags, calls.find);
    if found.Ok? {
      DetachAllFrame(c, calls.listing, ClusterSelector(tags), found.value, calls.detach);
      var d := DetachAll(c, calls.listing, ClusterSelector(tags), found.value, calls.detach);
      DropGroupItems(d.cloud, found.value, calls.rules, calls.delete);
      TaggedAfter(c, d.cloud, Groups, found.value, tags);
      TaggedAfter(c, DropGroup(d.cloud, found.value, calls.rules, calls.delete).cloud, Groups, found.value, tags);
    }
  }

  /** With honest answers only coverage counts. */
  lemma HonestlyRemovedIff(spec: Spec, st: Status, c: CloudState, id: Identity, e: Env, tolerated: set<ErrorClass>)
    requires Valid(c) && HonestRemoval(e) && tolerated <= {NotFound}
    requires RemoveBastion(spec, st, c, id, e, tolerated).result.Ok?
    ensures var c' := RemoveBastion(spec, st, c, id, e, tolerated).cloud;
            && Tagged(c', Groups, NodeTagsOf(spec, id)) == {}
            && (BastionGone(c', BastionTagsOf(spec, id)) <==>
                BastionCovered(c, BastionTagsOf(spec, id), st.bastion.ids))
  {
    hide RemoveBastion, BastionTagsOf, NodeTagsOf, Tagged, BastionCovered, BastionAnswered, BastionGone;
    RemovedBastionIff(spec, st, c, id, e, tolerated);
    HonestIsAnswered(c, BastionTagsOf(spec, id), st.bastion.ids, e.deleteBastion);
  }

  /** Even a removal that fails only takes away. */
  lemma RemoveBastionShrinks(spec: Spec, st: Status, c: CloudState, id: Identity, e: Env, tolerated: set<ErrorClass>)
    requires Valid(c)
    ensures BastionShrinks(c, RemoveBastion(spec, st, c, id, e, tolerated).cloud, BastionTagsOf(spec, id))
  {
    hide DeleteNodeSSH, DeleteBastion, BastionTagsOf, NodeTagsOf, Tagged;
    RoleTags(spec, id);
    var nodeTags, tags := NodeTagsOf(spec, id), BastionTagsOf(spec, id);
    var node := DeleteNodeSSH(c, nodeTags, e.deleteNodeSSH);
    DeleteNodeSSHItems(c, nodeTags, e.deleteNodeSSH);
    DeleteNodeSSHFrame(c, nodeTags, e.deleteNodeSSH);
    NodeSSHKeepsBastion(spec, c, id, e.deleteNodeSSH);
    DeleteBastionShrinks(node.cloud, tags, st.bastion.ids, e.deleteBastion, tags);
  }

  predicate NetworkCovered(spec: Spec, st: Status, c: CloudState, id: Identity)
  {
    var tagged := Tagged(c, Networks, ClusterTagsOf(spec, id));
    if spec.network != 0 then tagged == {} else Covers(st.network, tagged)
  }

  predicate NetworkAnswered(spec: Spec, st: Status, c: CloudState, id: Identity, e: Env)
  {
    spec.network == 0 ==>
      Answered(st.network, Tagged(c, Networks, ClusterTagsOf(spec, id)), e.findNetwork, e.deleteNetwork)
  }

  lemma DroppedNetworkIff(spec: Spec, st: Status, c: CloudState, id: Identity, e: Env)
    requires ValidStore(c.networks) && DropNetwork(spec, st, c, id, e).go
    ensures Tagged(DropNetwork(spec, st, c, id, e).cloud, Networks, ClusterTagsOf(spec, id)) == {} <==>
            NetworkCovered(spec, st, c, id) && NetworkAnswered(spec, st, c, id, e)
  {
    hide ClusterTagsOf, ResolveID, DeleteIfThere, Tagged, Covers, Answered, LeftOf;
    RoleTags(spec, id);
    var tags := ClusterTagsOf(spec, id);
    if spec.network == 0 {
      ResolvedClearsIff(c, Networks, st.network, tags, e.findNetwork, e.deleteNetwork);
      var n := ResolveID(c, Networks, st.network, tags, e.findNetwork).value;
      if n != 0 {
        DeleteIfThereItems(c, Networks, n, e.deleteNetwork);
        LeftTagged(c, DeleteIfThere(c, Networks, n, e.deleteNetwork).cloud, Networks, n, tags, e.deleteNetwork);
      } else {
        NoneLeft(c, tags, e.deleteNetwork);
      }
    }
  }

  lemma NoneLeft(c: CloudState, tags: Tags, delete: Outcome)
    requires ValidStore(c.networks)
    ensures LeftOf(Tagged(c, Networks, tags), 0, delete) == Tagged(c, Networks, tags)
  {
  }

  // ------------------------------------------------------------------ load balancer

  /** The load balancers that carry labels made of the tags, in whatever map order. */
  ghost function OwnBalancers(c: CloudState, tags: Tags): set<string>
  {
    set name | name in c.balancers && Carries(c.balancers[name].labels, tags)
  }

  ghost predicate BalancerCovered(st: Status, c: CloudState, tags: Tags)
  {
    |st.balancerID| > 0 ==> OwnBalancers(c, tags) <= {st.balancerID}
  }

  /** The lookup, if it is needed, is not refused and sees what is the cluster's own. */
  ghost predicate BalancerSeen(st: Status, c: CloudState, tags: Tags, e: Env)
  {
    || OwnBalancers(c, tags) == {} || |st.balancerID| > 0
    || (!e.balancer.serviceOff && MatchingBalancers(c, e.balancerLabels) == OwnBalancers(c, tags))
  }

  ghost predicate BalancerAnswered(st: Status, c: CloudState, tags: Tags, e: Env)
  {
    OwnBalancers(c, tags) == {} || (!Pretends(e.deleteBalancer) && BalancerSeen(st, c, tags, e))
  }

  /** A clean-up that gets through leaves no load balancer of the cluster exactly when
      the recorded name covers, the lookup for an empty one is not refused with
      "Service not enabled" and sees it, and the deletion does not pretend. */
  lemma {:induction false} DroppedBalancerIff(st: Status, c: CloudState, e: Env, tags: Tags)
    requires "" !in c.balancers && DropBalancer(st, c, e).go
    ensures OwnBalancers(DropBalancer(st, c, e).cloud, tags) == {} <==>
            BalancerCovered(st, c, tags) && BalancerAnswered(st, c, tags, e)
  {
    hide MatchingBalancers, OwnBalancers;
    var own := OwnBalancers(c, tags);
    var name := ResolveBalancer(c, st.balancerID, e.balancerLabels, e.balancer.list, e.balancer.serviceOff).value;
    ResolvedBalancer(c, st.balancerID, e);
    OwnWithout(c, name, tags, e.deleteBalancer);
    NoNameless(c, tags);
  }

  lemma NoNameless(c: CloudState, tags: Tags)
    requires "" !in c.balancers
    ensures forall name :: name in OwnBalancers(c, tags) ==> |name| > 0
  {
    assert forall name: string :: |name| == 0 ==> name == "";
  }

  /** What the lookup comes to. */
  lemma ResolvedBalancer(c: CloudState, recorded: string, e: Env)
    requires "" !in c.balancers
    ensures var r := ResolveBalancer(c, recorded, e.balancerLabels, e.balancer.list, e.balancer.serviceOff);
            r.Ok? ==>
              if |recorded| > 0 then r.value == recorded
              else if e.balancer.serviceOff then r.value == ""
              else MatchingBalancers(c, e.balancerLabels) == if |r.value| == 0 then {} else {r.value}
  {
    var matching := MatchingBalancers(c, e.balancerLabels);
    var r := ResolveBalancer(c, recorded, e.balancerLabels, e.balancer.list, e.balancer.serviceOff);
    assert forall x: string :: |x| == 0 ==> x == "";
    assert forall x :: x in matching ==> |x| > 0;
    hide MatchingBalancers;
    if r.Ok? && |recorded| == 0 && !e.balancer.serviceOff && matching != {} {
      assert r.value in matching && forall x :: x in matching ==> x == r.value;
    }
  }

  lemma OwnWithout(c: CloudState, name: string, tags: Tags, o: Outcome)
    ensures var d := Forgive(DeleteBalancer(c, name, o), {NotFound});
            d.result.Ok? ==>
              OwnBalancers(d.cloud, tags) ==
              if Pretends(o) then OwnBalancers(c, tags) else OwnBalancers(c, tags) - {name}
  {
    hide Carries;
  }

  /** Tags whose keys do not collide make one label map, and so the lookup sees all. */
  lemma CoherentSeesOwn(c: CloudState, tags: Tags, labels: Tags)
    requires Labeling(tags, labels)
    ensures MatchingBalancers(c, labels) <= OwnBalancers(c, tags)
    ensures Coherent(tags) ==> MatchingBalancers(c, labels) == OwnBalancers(c, tags)
  {
    hide MapContains;
    if Coherent(tags) {
      forall name | name in OwnBalancers(c, tags) ensures name in MatchingBalancers(c, labels) {
        var l :| Labeling(tags, l) && MapContains(c.balancers[name].labels, l);
        CoherentLabels(tags, l, labels);
      }
    }
  }

  // ------------------------------------------------------------------ the whole pass

  /** Nothing of the cluster is left in the cloud. */
  ghost predicate AllGone(spec: Spec, c: CloudState, id: Identity)
  {
    && BastionGone(c, BastionTagsOf(spec, id)) && Tagged(c, Groups, NodeTagsOf(spec, id)) == {}
    && Tagged(c, Networks, ClusterTagsOf(spec, id)) == {} && OwnBalancers(c, ClusterTagsOf(spec, id)) == {}
  }

  /** Every recorded ID is empty or names all that carries the tags. */
  ghost predicate Covered(spec: Spec, st: Status, c: CloudState, id: Identity)
  {
    && BastionCovered(c, BastionTagsOf(spec, id), st.bastion.ids)
    && NetworkCovered(spec, st, c, id) && BalancerCovered(st, c, ClusterTagsOf(spec, id))
  }

  /** No lookup and no deletion denies anything that is there. */
  ghost predicate AllAnswered(spec: Spec, st: Status, c: CloudState, id: Identity, e: Env)
  {
    && BastionAnswered(c, BastionTagsOf(spec, id), st.bastion.ids, e.deleteBastion)
    && NodeCleared(spec, st, c, id, e) && NetworkAnswered(spec, st, c, id, e)
    && BalancerAnswered(st, c, ClusterTagsOf(spec, id), e)
  }

  predicate HonestDeletion(e: Env)
  {
    HonestRemoval(e) && Truthful(e.findNetwork) && Truthful(e.deleteNetwork) && Truthful(e.deleteBalancer)
  }

  lemma HonestAnswers(spec: Spec, st: Status, c: CloudState, id: Identity, e: Env)
    requires HonestDeletion(e)
    ensures AllAnswered(spec, st, c, id, e) <==> BalancerSeen(st, c, ClusterTagsOf(spec, id), e)
  {
    hide Tagged, BastionTagsOf, NodeTagsOf, ClusterTagsOf, OwnBalancers, MatchingBalancers;
    HonestIsAnswered(c, BastionTagsOf(spec, id), st.bastion.ids, e.deleteBastion);
  }

  /** A deletion pass that reaches the end, and so removes the finalizer, leaves
      nothing of the cluster behind if and only if the recorded IDs covered it and no
      lookup or deletion denied it. Nothing is assumed of the answers. */
  lemma {:induction false} TeardownCompleteIff(spec: Spec, st: Status, c: CloudState, id: Identity, e: Env)
    requires Valid(c) && "" !in c.balancers && CleanUp(spec, st, c, id, e).go
    ensures AllGone(spec, CleanUp(spec, st, c, id, e).cloud, id) <==>
            Covered(spec, st, c, id) && AllAnswered(spec, st, c, id, e)
  {
    hide DropBalancer, DropBastion, DropNetwork, Tagged, OwnBalancers, ClusterTagsOf, NodeTagsOf, BastionTagsOf;
    hide BastionCovered, BastionGone, BastionAnswered, NodeCleared, NetworkCovered, NetworkAnswered;
    hide BalancerCovered, BalancerAnswered;
    var s1 := DropBalancer(st, c, e);
    DroppedBalancerIff(st, c, e, ClusterTagsOf(spec, id));
    ClusterNetwork.DropBalancerFrame(st, c, e);
    var s2 := DropBastion(spec, s1.status, s1.cloud, id, e);
    ClusterNetwork.DropBastionFrame(spec, s1.status, s1.cloud, id, e);
    DroppedBastionIff(spec, s1.status, s1.cloud, id, e);
    var s3 := DropNetwork(spec, s2.status, s2.cloud, id, e);
    DroppedNetworkIff(spec, s2.status, s2.cloud, id, e);
    DropNetworkFrame(spec, s2.status, s2.cloud, id, e);
    SameParts(c, s1.cloud, s2.cloud, s3.cloud, spec, id);
    SameQuestions(c, s1.cloud, s2.cloud, spec, st, s1.status, s2.status, id, e);
  }

  lemma DroppedBastionIff(spec: Spec, st: Status, c: CloudState, id: Identity, e: Env)
    requires Valid(c) && DropBastion(spec, st, c, id, e).go
    ensures var c' := DropBastion(spec, st, c, id, e).cloud;
            var b, ids := BastionTagsOf(spec, id), st.bastion.ids;
            && (Tagged(c', Groups, NodeTagsOf(spec, id)) == {} <==> NodeCleared(spec, st, c, id, e))
            && (BastionGone(c', b) <==> BastionCovered(c, b, ids) && BastionAnswered(c, b, ids, e.deleteBastion))
  {
    hide RemoveBastion, Tagged, NodeTagsOf, BastionTagsOf, BastionGone, BastionCovered, BastionAnswered, NodeCleared;
    RemovedBastionIff(spec, st, c, id, e, {NotFound});
  }

  lemma DropNetworkFrame(spec: Spec, st: Status, c: CloudState, id: Identity, e: Env)
    ensures var c' := DropNetwork(spec, st, c, id, e).cloud;
            c' == c.(networks := c'.networks, attached := c'.attached)
  {
    hide NetworkToDelete, CloudModel.Delete;
    var target := NetworkToDelete(spec, st, c, id, e);
    if target.Ok? { DeleteFrame(c, Networks, target.value, e.deleteNetwork); }
  }

  /** What a stage has removed, the later stages leave alone. */
  lemma SameParts(c: CloudState, c1: CloudState, c2: CloudState, c3: CloudState, spec: Spec, id: Identity)
    requires c1 == c.(balancers := c1.balancers) && BastionPartOnly(c1, c2)
    requires c3 == c2.(networks := c3.networks, attached := c3.attached)
    ensures OwnBalancers(c3, ClusterTagsOf(spec, id)) == OwnBalancers(c1, ClusterTagsOf(spec, id))
    ensures BastionGone(c3, BastionTagsOf(spec, id)) == BastionGone(c2, BastionTagsOf(spec, id))
    ensures Tagged(c3, Groups, NodeTagsOf(spec, id)) == Tagged(c2, Groups, NodeTagsOf(spec, id))
  {
    hide BastionTagsOf, NodeTagsOf, ClusterTagsOf, Carries;
  }

  /** Each stage's question is about what the earlier stages leave alone. */
  lemma SameQuestions(c: CloudState, c1: CloudState, c2: CloudState, spec: Spec,
                      st: Status, st1: Status, st2: Status, id: Identity, e: Env)
    requires c1 == c.(balancers := c1.balancers) && c2.networks == c.networks
    requires st1.bastion == st.bastion && st2.network == st.network
    ensures var b, ids := BastionTagsOf(spec, id), st.bastion.ids;
            && BastionCovered(c1, b, ids) == BastionCovered(c, b, ids)
            && BastionAnswered(c1, b, ids, e.deleteBastion) == BastionAnswered(c, b, ids, e.deleteBastion)
    ensures NodeCleared(spec, st1, c1, id, e) == NodeCleared(spec, st, c, id, e)
    ensures NetworkCovered(spec, st2, c2, id) == NetworkCovered(spec, st, c, id)
    ensures NetworkAnswered(spec, st2, c2, id, e) == NetworkAnswered(spec, st, c, id, e)
  {
    hide BastionTagsOf, NodeTagsOf, ClusterTagsOf, Matches;
  }
}
