/** Tags on cloud resources and the selectors that look resources up again
    (util/tags.go, cloud/services/bastion/bastion.go, cloud/sdk_client.go). */
module Labels {

  type Tags = map<string, string>

  const ClusterName := "cluster.x-k8s.io/cluster-name"
  const ClusterNamespace := "cluster.x-k8s.io/cluster-namespace"
  const MachineName := "cluster.x-k8s.io/machine-name"
  const MachineUID := "cluster.x-k8s.io/machine-uid"
  const ManagedBy := "cluster.x-k8s.io/managed-by"
  const ResourceRole := "cluster-api-provider-stackit/resource-role"
  const Provider := "cluster-api-provider-stackit"
  const RoleBastion := "bastion"
  const RoleNodeSSH := "node-ssh"

  lemma KeysDiffer()
    ensures ClusterName != ClusterNamespace && ClusterName != MachineName && ClusterName != MachineUID
    ensures ClusterName != ManagedBy && ClusterName != ResourceRole
    ensures ClusterNamespace != MachineName && ClusterNamespace != MachineUID
    ensures ClusterNamespace != ManagedBy && ClusterNamespace != ResourceRole
    ensures MachineName != MachineUID && MachineName != ManagedBy && MachineName != ResourceRole
    ensures MachineUID != ManagedBy && MachineUID != ResourceRole && ManagedBy != ResourceRole
    ensures RoleBastion != RoleNodeSSH
  {
    assert |ClusterName| == 29 && |ClusterNamespace| == 34 && |MachineName| == 29;
    assert |MachineUID| == 28 && |ManagedBy| == 27 && |ResourceRole| == 42;
    assert ClusterName[17] == 'c' && MachineName[17] == 'm';
    assert |RoleBastion| == 7 && |RoleNodeSSH| == 8;
  }

  // ------------------------------------------------------------------- building

  function ReservedForCluster(name: string, namespace: string): Tags
  {
    map[ClusterName := name, ClusterNamespace := namespace, ManagedBy := Provider]
  }

  function ReservedForMachine(name: string, namespace: string, machine: string, uid: string): Tags
  {
    map[ClusterName := name, ClusterNamespace := namespace,
        MachineName := machine, MachineUID := uid, ManagedBy := Provider]
  }

  /** User labels never overwrite the provider's own. */
  function ClusterTags(name: string, namespace: string, extra: Tags): Tags
  {
    extra + ReservedForCluster(name, namespace)
  }

  function MachineTags(name: string, namespace: string, machine: string, uid: string, extra: Tags): Tags
  {
    extra + ReservedForMachine(name, namespace, machine, uid)
  }

  function BastionTags(name: string, namespace: string, extra: Tags): Tags
  {
    ClusterTags(name, namespace, extra)[ResourceRole := RoleBastion]
  }

  function NodeSSHTags(name: string, namespace: string, extra: Tags): Tags
  {
    ClusterTags(name, namespace, extra)[ResourceRole := RoleNodeSSH]
  }

  /** The loop both tag builders share: add every label whose key is not reserved. */
  method MergeLabels(reserved: Tags, extra: Tags) returns (out: Tags)
    ensures out == extra + reserved
  {
    out := reserved;
    var rest := extra.Keys;
    while rest != {}
      invariant rest <= extra.Keys
      invariant out.Keys == reserved.Keys + (extra.Keys - rest)
      invariant forall k :: k in reserved ==> out[k] == reserved[k]
      invariant forall k :: k in extra.Keys - rest && k !in reserved ==> out[k] == extra[k]
      decreases rest
    {
      var k :| k in rest;
      rest := rest - {k};
      if k in out { continue; }
      out := out[k := extra[k]];
    }
  }

  method BuildClusterTags(name: string, namespace: string, extra: Tags) returns (out: Tags)
    ensures out == ClusterTags(name, namespace, extra)
  {
    out := MergeLabels(ReservedForCluster(name, namespace), extra);
  }

  method BuildMachineTags(name: string, namespace: string, machine: string, uid: string, extra: Tags)
    returns (out: Tags)
    ensures out == MachineTags(name, namespace, machine, uid, extra)
  {
    out := MergeLabels(ReservedForMachine(name, namespace, machine, uid), extra);
  }

  // ------------------------------------------------------------------- matching

  /** labelsContainTags. */
  predicate Matches(labels: Tags, selector: Tags)
  {
    forall k :: k in selector ==> k in labels && labels[k] == selector[k]
  }

  method LabelsContainTags(labels: Tags, selector: Tags) returns (r: bool)
    ensures r == Matches(labels, selector)
  {
    var rest := selector.Keys;
    while rest != {}
      invariant rest <= selector.Keys
      invariant forall k :: k in selector.Keys - rest ==> k in labels && labels[k] == selector[k]
      decreases rest
    {
      var k :| k in rest;
      if k !in labels || labels[k] != selector[k] { return false; }
      rest := rest - {k};
    }
    return true;
  }

  /** Labels that bind a resource to one cluster. */
  predicate BelongsTo(labels: Tags, name: string, namespace: string)
  {
    Matches(labels, ReservedForCluster(name, namespace))
  }

  lemma AllTagsBelong(name: string, namespace: string, machine: string, uid: string, extra: Tags)
    ensures BelongsTo(ClusterTags(name, namespace, extra), name, namespace)
    ensures BelongsTo(BastionTags(name, namespace, extra), name, namespace)
    ensures BelongsTo(NodeSSHTags(name, namespace, extra), name, namespace)
    ensures BelongsTo(MachineTags(name, namespace, machine, uid, extra), name, namespace)
  {
    KeysDiffer();
  }

  /** Nothing of one cluster matches a selector of another: any labels and any
      selector that bind to different (name, namespace) pairs never meet. */
  lemma ClustersApart(labels: Tags, selector: Tags, name: string, namespace: string, name': string, namespace': string)
    requires BelongsTo(labels, name, namespace) && BelongsTo(selector, name', namespace')
    requires name != name' || namespace != namespace'
    ensures !Matches(labels, selector)
  {
    KeysDiffer();
    var r, r' := ReservedForCluster(name, namespace), ReservedForCluster(name', namespace');
    assert ClusterName in r && ClusterNamespace in r && ClusterName in r' && ClusterNamespace in r';
  }

  lemma MachinesApart(name: string, namespace: string, m: string, uid: string, extra: Tags,
                      name': string, namespace': string, m': string, uid': string, extra': Tags)
    requires uid != uid'
    ensures !Matches(MachineTags(name, namespace, m, uid, extra), MachineTags(name', namespace', m', uid', extra'))
  {
    KeysDiffer();
    assert MachineUID in MachineTags(name', namespace', m', uid', extra');
  }

  /** Whatever the user labels say, the two roles never see each other's resources. */
  lemma RolesApart(name: string, namespace: string, extra: Tags, name': string, namespace': string, extra': Tags)
    ensures !Matches(BastionTags(name, namespace, extra), NodeSSHTags(name', namespace', extra'))
    ensures !Matches(NodeSSHTags(name, namespace, extra), BastionTags(name', namespace', extra'))
  {
    KeysDiffer();
    assert ResourceRole in NodeSSHTags(name', namespace', extra');
    assert ResourceRole in BastionTags(name', namespace', extra');
  }

  /** The new labels under keys that are not the provider's own were already there. */
  predicate OnlyDrops(was: Tags, now: Tags, own: set<string>)
  {
    forall k :: k in now && k !in own ==> k in was && was[k] == now[k]
  }

  /** The cluster's own labels beyond the reserved ones, repeated by a machine. */
  predicate Repeats(labels: Tags, m: string, uid: string, extra: Tags)
  {
    forall k :: k in extra && k !in {ClusterName, ClusterNamespace, ManagedBy, ResourceRole} ==>
      if k == MachineName then extra[k] == m
      else if k == MachineUID then extra[k] == uid
      else k in labels && labels[k] == extra[k]
  }

  lemma MachineTagsAt(cluster: string, namespace: string, m: string, uid: string, labels: Tags)
    ensures var tags := MachineTags(cluster, namespace, m, uid, labels);
            forall k ::
              (k in tags <==>
               k in labels || k in {ClusterName, ClusterNamespace, MachineName, MachineUID, ManagedBy}) &&
              (k in tags ==> tags[k] == if k == ClusterName then cluster else if k == ClusterNamespace then namespace
                                        else if k == MachineName then m else if k == MachineUID then uid
                                        else if k == ManagedBy then Provider else labels[k])
  {
    KeysDiffer();
  }

  lemma BastionTagsAt(name: string, namespace: string, extra: Tags)
    ensures var tags := BastionTags(name, namespace, extra);
            forall k :: (k in tags <==> k in extra || k in {ClusterName, ClusterNamespace, ManagedBy, ResourceRole}) &&
              (k in tags ==> tags[k] == if k == ClusterName then name else if k == ClusterNamespace then namespace
                                        else if k == ManagedBy then Provider
                                        else if k == ResourceRole then RoleBastion else extra[k])
  {
    KeysDiffer();
  }

  /** The bastion selector and machine servers. The role key is not reserved for
      machines, so a machine server is taken for the bastion exactly when it sits in
      the same cluster, its user labels claim the role, and they repeat every
      further label of the cluster. */
  lemma {:induction false} BastionSelectorOnMachine(name: string, namespace: string, extra: Tags,
                                                    cluster: string, clusterNS: string,
                                                    m: string, uid: string, labels: Tags)
    ensures Matches(MachineTags(cluster, clusterNS, m, uid, labels), BastionTags(name, namespace, extra)) <==>
            && cluster == name && clusterNS == namespace
            && ResourceRole in labels && labels[ResourceRole] == RoleBastion && Repeats(labels, m, uid, extra)
  {
    KeysDiffer();
    MachineTagsAt(cluster, clusterNS, m, uid, labels);
    BastionTagsAt(name, namespace, extra);
    hide MachineTags, BastionTags;
    var tags, sel := MachineTags(cluster, clusterNS, m, uid, labels), BastionTags(name, namespace, extra);
    if Matches(tags, sel) {
      assert ClusterName in sel && ClusterNamespace in sel && ResourceRole in sel;
      forall k | k in extra && k !in {ClusterName, ClusterNamespace, ManagedBy, ResourceRole}
        ensures tags[k] == extra[k] { assert k in sel; }
    } else {
      var k :| k in sel && !(k in tags && tags[k] == sel[k]);
      assert k in {ClusterName, ClusterNamespace, ManagedBy, ResourceRole} || k in extra;
    }
  }

  /** The machine selector and the bastion server, the other way round. */
  lemma {:induction false} MachineSelectorOnBastion(name: string, namespace: string, extra: Tags,
                                                    cluster: string, clusterNS: string,
                                                    m: string, uid: string, labels: Tags)
    ensures Matches(BastionTags(name, namespace, extra), MachineTags(cluster, clusterNS, m, uid, labels)) <==>
            && cluster == name && clusterNS == namespace
            && MachineName in extra && extra[MachineName] == m
            && MachineUID in extra && extra[MachineUID] == uid
            && (forall k :: k in labels && k !in {ClusterName, ClusterNamespace, MachineName, MachineUID, ManagedBy} ==>
                  if k == ResourceRole then labels[k] == RoleBastion
                  else k in extra && extra[k] == labels[k])
  {
    KeysDiffer();
    MachineTagsAt(cluster, clusterNS, m, uid, labels);
    BastionTagsAt(name, namespace, extra);
    hide MachineTags, BastionTags;
    var tags, sel := BastionTags(name, namespace, extra), MachineTags(cluster, clusterNS, m, uid, labels);
    assert ClusterName in sel && ClusterNamespace in sel && MachineName in sel && MachineUID in sel;
    if Matches(tags, sel) {
      forall k | k in labels && k !in {ClusterName, ClusterNamespace, MachineName, MachineUID, ManagedBy}
        ensures k in tags && tags[k] == labels[k] { assert k in sel; }
    }
  }

  // -------------------------------------------------------- load balancer labels

  function SlashesToDots(s: string): (r: string)
    ensures |r| == |s|
  {
    seq(|s|, i requires 0 <= i < |s| => if s[i] == '/' then '.' else s[i])
  }

  /** labels is a possible outcome of loadBalancerLabels(tags): the Go map is
      iterated in any order, so a key hit twice keeps either value. */
  ghost predicate Labeling(tags: Tags, labels: Tags)
  {
    && (forall k :: k in tags ==> SlashesToDots(k) in labels)
    && (forall l :: l in labels ==> exists k :: k in tags && SlashesToDots(k) == l && labels[l] == tags[k])
  }

  method LoadBalancerLabels(tags: Tags) returns (labels: Tags)
    ensures Labeling(tags, labels)
  {
    labels := map[];
    var rest := tags.Keys;
    while rest != {}
      invariant rest <= tags.Keys
      invariant forall k :: k in tags.Keys - rest ==> SlashesToDots(k) in labels
      invariant forall l :: l in labels ==> exists k :: k in tags && SlashesToDots(k) == l && labels[l] == tags[k]
      decreases rest
    {
      var k :| k in rest;
      labels := labels[SlashesToDots(k) := tags[k]];
      rest := rest - {k};
    }
  }

  /** mapContains: a missing key reads as "". */
  predicate MapContains(haystack: Tags, needle: Tags)
  {
    forall k :: k in needle ==> (if k in haystack then haystack[k] else "") == needle[k]
  }

  /** So a label with an empty value asks for nothing where the key is missing. */
  lemma EmptyValueAsksNothing(haystack: Tags, needle: Tags, k: string, v: string)
    requires k !in haystack && k !in needle
    ensures MapContains(haystack, needle[k := v]) <==> v == "" && MapContains(haystack, needle)
  {
    assert k in needle[k := v];
    assert forall x :: x in needle ==> x in needle[k := v] && needle[k := v][x] == needle[x];
  }

  /** Keys that fall together after the replacement carry one value. */
  ghost predicate Coherent(tags: Tags)
  {
    forall a, b :: a in tags && b in tags && SlashesToDots(a) == SlashesToDots(b) ==> tags[a] == tags[b]
  }

  /** The labels that some map order makes. */
  ghost function SomeLabels(tags: Tags): Tags
  {
    var keys := set a | a in tags :: SlashesToDots(a);
    map l | l in keys :: (var a :| a in tags && SlashesToDots(a) == l; tags[a])
  }

  lemma SomeLabeling(tags: Tags)
    ensures Labeling(tags, SomeLabels(tags))
  {
  }

  lemma LabelingWith(tags: Tags, k: string) returns (labels: Tags)
    requires k in tags
    ensures Labeling(tags, labels) && SlashesToDots(k) in labels && labels[SlashesToDots(k)] == tags[k]
  {
    SomeLabeling(tags);
    labels := SomeLabels(tags)[SlashesToDots(k) := tags[k]];
  }

  /** A load balancer created with tags T is found again by T, whatever the two
      iteration orders were, if and only if T is coherent. */
  lemma {:induction false} FoundAgainIffCoherent(tags: Tags)
    ensures (forall created, sought ::
               Labeling(tags, created) && Labeling(tags, sought) ==> MapContains(created, sought))
            <==> Coherent(tags)
  {
    if Coherent(tags) {
      forall created, sought | Labeling(tags, created) && Labeling(tags, sought)
        ensures MapContains(created, sought)
      {
        forall l | l in sought ensures l in created && created[l] == sought[l] {
          var k :| k in tags && SlashesToDots(k) == l && sought[l] == tags[k];
          var j :| j in tags && SlashesToDots(j) == l && created[l] == tags[j];
        }
      }
    } else {
      var a, b :| a in tags && b in tags && SlashesToDots(a) == SlashesToDots(b) && tags[a] != tags[b];
      var created := LabelingWith(tags, a);
      var sought := LabelingWith(tags, b);
      assert !MapContains(created, sought);
    }
  }

  /** Coherent tags leave the map order no choice. */
  lemma CoherentLabels(tags: Tags, a: Tags, b: Tags)
    requires Coherent(tags) && Labeling(tags, a) && Labeling(tags, b)
    ensures a == b
  {
    forall l | l in a ensures l in b && a[l] == b[l] { LabelAgrees(tags, a, b, l); }
    forall l | l in b ensures l in a { LabelAgrees(tags, b, a, l); }
  }

  lemma LabelAgrees(tags: Tags, a: Tags, b: Tags, l: string)
    requires Coherent(tags) && Labeling(tags, a) && Labeling(tags, b) && l in a
    ensures l in b && a[l] == b[l]
  {
    var k :| k in tags && SlashesToDots(k) == l && a[l] == tags[k];
    var j :| j in tags && SlashesToDots(j) == l && b[l] == tags[j];
  }

  /** Labels that one map order or another makes of the tags are among these. */
  ghost predicate Carries(labels: Tags, tags: Tags)
  {
    exists l :: Labeling(tags, l) && MapContains(labels, l)
  }

  /** A user label can collide with a reserved key, so cluster tags are not always
      coherent: the key with "." in place of "/" is a legal label key. */
  lemma ReservedKeyCanCollide()
    ensures !Coherent(ClusterTags("a", "b", map[SlashesToDots(ClusterName) := "c"]))
  {
    KeysDiffer();
    var user := SlashesToDots(ClusterName);
    var tags := ClusterTags("a", "b", map[user := "c"]);
    assert ClusterName[16] == '/' && user[16] == '.';
    assert |user| == 29 && |ClusterNamespace| == 34 && |ManagedBy| == 27;
    assert user in tags && ClusterName in tags && tags[user] == "c" && tags[ClusterName] == "a";
    assert SlashesToDots(user) == SlashesToDots(ClusterName);
    assert "c" != "a" by { assert "c"[0] != "a"[0]; }
  }
}
