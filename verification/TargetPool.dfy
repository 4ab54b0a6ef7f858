/** The API server target pool: which machines are in it, under which names, and
    when two pools are the same (cloud/services/loadbalancer/loadbalancer.go,
    sameTargets in cloud/sdk_client.go, the Machine watch filter). */
module TargetPool {
  import opened Api
  import opened Ordering

  datatype AddressType = InternalIP | ExternalIP | Hostname | InternalDNS | ExternalDNS
  datatype Address = Address(kind: AddressType, address: string)

  /** A Cluster API Machine; revision stands for everything the pool never reads
      (phase, conditions, node reference, generation). deletedAt 0 is the zero time. */
  datatype Machine = Machine(
    name: string,
    labels: map<string, string>,
    deletedAt: nat,
    addresses: seq<Address>,
    revision: nat)

  datatype Target = Target(name: string, ip: string)

  const MaxTargetName := 63
  const DigestLength := 7
  const ClusterNameLabel := "cluster.x-k8s.io/cluster-name"
  const ControlPlaneLabel := "cluster.x-k8s.io/control-plane"

  // ---------------------------------------------------------------- target names

  predicate Digit(c: char) { '0' <= c <= '9' }
  predicate Alphanumeric(c: char) { 'a' <= c <= 'z' || Digit(c) }
  predicate Hex(c: char) { 'a' <= c <= 'f' || Digit(c) }

  /** section 2.1 of RFC 1123, as Kubernetes checks object names. */
  predicate Subdomain(s: string)
  {
    && 1 <= |s| <= 253
    && Alphanumeric(s[0]) && Alphanumeric(s[|s| - 1])
    && (forall i :: 0 <= i < |s| ==> Alphanumeric(s[i]) || s[i] == '-' || s[i] == '.')
    && (forall i :: 0 < i < |s| - 1 && s[i] == '.' ==> Alphanumeric(s[i - 1]) && Alphanumeric(s[i + 1]))
  }

  /** A label: at most 63 characters (section 2.3.4 of RFC 1035). */
  predicate Label(s: string)
  {
    && 1 <= |s| <= MaxTargetName
    && Alphanumeric(s[0]) && Alphanumeric(s[|s| - 1])
    && (forall i :: 0 <= i < |s| ==> Alphanumeric(s[i]) || s[i] == '-')
  }

  predicate HexDigest(s: string)
  {
    |s| == 64 && forall i :: 0 <= i < |s| ==> Hex(s[i])
  }

  ghost predicate HexDigests(f: string -> string)
  {
    forall s {:trigger f(s)} :: HexDigest(f(s))
  }

  /** SHA-256 as a hexadecimal string; only the shape of its values is used. */
  type Digest = f: string -> string | HexDigests(f) witness ZeroDigest

  function ZeroDigest(s: string): string { seq(64, _ => '0') }

  function DotsToDashes(s: string): (r: string)
    ensures |r| == |s|
    ensures forall i :: 0 <= i < |s| ==> r[i] == if s[i] == '.' then '-' else s[i]
  {
    seq(|s|, i requires 0 <= i < |s| => if s[i] == '.' then '-' else s[i])
  }

  /** strings.TrimRight(s, "-"). */
  function TrimDashes(s: string): (r: string)
    ensures r <= s
    ensures r == "" || r[|r| - 1] != '-'
    ensures forall i :: |r| <= i < |s| ==> s[i] == '-'
  {
    if s != "" && s[|s| - 1] == '-' then TrimDashes(s[..|s| - 1]) else s
  }

  predicate KeptAsIs(machineName: string)
  {
    |machineName| <= MaxTargetName && '.' !in machineName
  }

  function TargetName(machineName: string, sha: Digest): (r: string)
  {
    if KeptAsIs(machineName) then machineName
    else
      var suffix := "-" + sha(machineName)[..DigestLength];
      var name := DotsToDashes(machineName);
      var room := MaxTargetName - |suffix|;
      (if |name| > room then TrimDashes(name[..room]) else name) + suffix
  }

  /** Every machine name becomes a label, and labels are left alone. */
  lemma TargetNameIsLabel(name: string, sha: Digest)
    requires Subdomain(name)
    ensures Label(TargetName(name, sha))
    ensures Label(name) ==> TargetName(name, sha) == name
  {
    assert Label(name) ==> KeptAsIs(name);
    if !KeptAsIs(name) {
      assert HexDigest(sha(name));
      var dashed := DotsToDashes(name);
      if |dashed| > 55 {
        var kept := TrimDashes(dashed[..55]);
        assert dashed[..55][0] == name[0];
        assert kept != "" && kept[0] == name[0];
      }
    }
  }

  /** A rewritten name is a piece of the dashed name and seven digits of the digest. */
  lemma RewrittenName(name: string, sha: Digest)
    requires |name| > 63 || '.' in name
    ensures var r := TargetName(name, sha);
            |r| >= 8 && r[|r| - 8..] == "-" + sha(name)[..7] && r[..|r| - 8] <= DotsToDashes(name)
  {
    assert HexDigest(sha(name));
    var r := TargetName(name, sha);
    var suffix := "-" + sha(name)[..7];
    assert |suffix| == 8 && r == r[..|r| - 8] + suffix;
  }

  /** Rewritten names with different digest prefixes stay apart. */
  lemma TargetNamesSeparated(a: string, b: string, sha: Digest)
    requires !KeptAsIs(a) && !KeptAsIs(b)
    requires sha(a)[..DigestLength] != sha(b)[..DigestLength]
    ensures TargetName(a, sha) != TargetName(b, sha)
  {
    var ta, tb := TargetName(a, sha), TargetName(b, sha);
    assert ta[|ta| - DigestLength..] == sha(a)[..DigestLength];
    assert tb[|tb| - DigestLength..] == sha(b)[..DigestLength];
  }

  // ------------------------------------------------------------ the desired pool

  function FirstInternalIP(addresses: seq<Address>): (ip: string)
  {
    if addresses == [] then ""
    else if addresses[0].kind.InternalIP? && addresses[0].address != "" then addresses[0].address
    else FirstInternalIP(addresses[1..])
  }

  /** It is the first non-empty internal address, and "" exactly when there is none. */
  lemma FirstInternalIPMeaning(addresses: seq<Address>)
    ensures var ip := FirstInternalIP(addresses);
            if ip == "" then forall a :: a in addresses && a.kind.InternalIP? ==> a.address == ""
            else exists i :: 0 <= i < |addresses| && addresses[i] == Address(InternalIP, ip) &&
                             forall j :: 0 <= j < i && addresses[j].kind.InternalIP? ==> addresses[j].address == ""
  {
    if addresses != [] {
      FirstInternalIPMeaning(addresses[1..]);
      assert addresses == [addresses[0]] + addresses[1..];
      var ip := FirstInternalIP(addresses);
      if ip != "" && !(addresses[0].kind.InternalIP? && addresses[0].address != "") {
        var i :| 0 <= i < |addresses[1..]| && addresses[1..][i] == Address(InternalIP, ip) &&
                 forall j :: 0 <= j < i && addresses[1..][j].kind.InternalIP? ==> addresses[1..][j].address == "";
        forall j | 0 <= j < i + 1 && addresses[j].kind.InternalIP? ensures addresses[j].address == "" {
          if j > 0 { assert addresses[1..][j - 1] == addresses[j]; }
        }
        assert addresses[i + 1] == Address(InternalIP, ip);
      }
    }
  }

  function IP(m: Machine): string { FirstInternalIP(m.addresses) }

  /** ip is the machine's first non-empty internal address. */
  predicate Reports(m: Machine, ip: string)
  {
    ip != "" &&
    exists i :: 0 <= i < |m.addresses| && m.addresses[i] == Address(InternalIP, ip) &&
                forall j :: 0 <= j < i && m.addresses[j].kind.InternalIP? ==> m.addresses[j].address == ""
  }

  lemma ReportsIff(m: Machine, ip: string)
    ensures Reports(m, ip) <==> ip != "" && IP(m) == ip
  {
    FirstInternalIPMeaning(m.addresses);
    if i, k :| 0 <= i < |m.addresses| && m.addresses[i] == Address(InternalIP, ip) && ip != "" &&
               (forall j :: 0 <= j < i && m.addresses[j].kind.InternalIP? ==> m.addresses[j].address == "") &&
               0 <= k < |m.addresses| && m.addresses[k] == Address(InternalIP, IP(m)) && IP(m) != "" &&
               (forall j :: 0 <= j < k && m.addresses[j].kind.InternalIP? ==> m.addresses[j].address == "") {
      assert i == k;
    }
  }

  predicate ByName(a: Machine, b: Machine) { Leq(a.name, b.name) }

  lemma ByNameIsPreorder()
    ensures TotalPreorder(ByName)
  {
    forall a: Machine, b: Machine ensures ByName(a, b) || ByName(b, a) { LeqTotal(a.name, b.name); }
    forall a: Machine, b: Machine, c: Machine | ByName(a, b) && ByName(b, c) ensures ByName(a, c) {
      LeqTransitive(a.name, b.name, c.name);
    }
  }

  function TargetOf(m: Machine, sha: Digest): Target
  {
    Target(TargetName(m.name, sha), IP(m))
  }

  function Targets(owners: seq<Machine>, sha: Digest): (r: seq<Target>)
    ensures |r| == |owners|
    ensures forall i :: 0 <= i < |owners| ==> r[i] == TargetOf(owners[i], sha)
  {
    seq(|owners|, i requires 0 <= i < |owners| => TargetOf(owners[i], sha))
  }

  /** owners are the machines that hold a target: ordered by name, one per
      distinct internal IP, each the least-named machine reporting that IP. */
  ghost predicate OwnersOf(ms: seq<Machine>, owners: seq<Machine>)
  {
    && Sorted(owners, ByName)
    && (forall m :: m in owners ==> m in ms && IP(m) != "")
    && (forall i, j :: 0 <= i < j < |owners| ==> IP(owners[i]) != IP(owners[j]))
    && (forall m :: m in ms && IP(m) != "" ==> Held(owners, m))
  }

  ghost predicate Held(owners: seq<Machine>, m: Machine)
  {
    exists o :: o in owners && IP(o) == IP(m) && Leq(o.name, m.name)
  }

  /** The machines of a name-sorted list that are kept by the seen-IP scan. */
  function Owners(sorted: seq<Machine>): seq<Machine>
  {
    if sorted == [] then []
    else
      var before, m := Owners(sorted[..|sorted| - 1]), sorted[|sorted| - 1];
      if IP(m) == "" || (exists o :: o in before && IP(o) == IP(m)) then before else before + [m]
  }

  lemma HeldByMore(owners: seq<Machine>, x: Machine, m: Machine)
    requires Held(owners, m)
    ensures Held(owners + [x], m)
  {
    var o :| o in owners && IP(o) == IP(m) && Leq(o.name, m.name);
    assert o in owners + [x];
  }

  lemma HeldBySelf(owners: seq<Machine>, m: Machine)
    requires m in owners
    ensures Held(owners, m)
  {
    LeqTotal(m.name, m.name);
  }

  /** Skipping a machine whose IP is empty or taken keeps the owners right. */
  lemma OwnersSkip(before: seq<Machine>, owners: seq<Machine>, m: Machine)
    requires OwnersOf(before, owners)
    requires forall o :: o in owners ==> Leq(o.name, m.name)
    requires IP(m) == "" || exists o :: o in owners && IP(o) == IP(m)
    ensures OwnersOf(before + [m], owners)
  {
    forall x | x in before + [m] && IP(x) != "" ensures Held(owners, x) {
      if x !in before {
        var o :| o in owners && IP(o) == IP(m);
        assert Leq(o.name, x.name);
      }
    }
  }

  lemma OwnersAdd(before: seq<Machine>, owners: seq<Machine>, m: Machine)
    requires OwnersOf(before, owners)
    requires forall o :: o in owners ==> Leq(o.name, m.name)
    requires IP(m) != "" && forall o :: o in owners ==> IP(o) != IP(m)
    ensures OwnersOf(before + [m], owners + [m])
  {
    var grown := owners + [m];
    forall i, j | 0 <= i < j < |grown| ensures ByName(grown[i], grown[j]) && IP(grown[i]) != IP(grown[j]) {
      assert grown[i] in owners;
      if j < |owners| { assert ByName(owners[i], owners[j]); }
    }
    forall x | x in before + [m] && IP(x) != "" ensures Held(grown, x) {
      if x in before { HeldByMore(owners, m, x); } else { HeldBySelf(grown, x); }
    }
  }

  lemma {:induction false} OwnersCorrect(sorted: seq<Machine>)
    requires Sorted(sorted, ByName)
    ensures OwnersOf(sorted, Owners(sorted))
  {
    if sorted != [] {
      var before, m := sorted[..|sorted| - 1], sorted[|sorted| - 1];
      var owners := Owners(before);
      assert sorted == before + [m];
      OwnersCorrect(before);
      forall o | o in owners ensures Leq(o.name, m.name) {
        var i :| 0 <= i < |before| && before[i] == o;
        assert ByName(sorted[i], sorted[|sorted| - 1]);
      }
      if IP(m) == "" || (exists o :: o in owners && IP(o) == IP(m)) {
        OwnersSkip(before, owners, m);
      } else {
        OwnersAdd(before, owners, m);
      }
    }
  }

  function DesiredPool(ms: seq<Machine>, sha: Digest): seq<Target>
  {
    Targets(Owners(Sort(ms, ByName)), sha)
  }

  lemma PoolMembers(ms: seq<Machine>)
    ensures OwnersOf(ms, Owners(Sort(ms, ByName)))
  {
    ByNameIsPreorder();
    SortCorrect(ms, ByName);
    OwnersCorrect(Sort(ms, ByName));
    assert forall m :: m in ms <==> m in multiset(ms);
    assert forall m :: m in Sort(ms, ByName) <==> m in multiset(Sort(ms, ByName));
  }

  ghost predicate UniqueNames(ms: seq<Machine>)
  {
    forall a, b :: a in ms && b in ms && a.name == b.name ==> a == b
  }

  lemma OneOwnerPerIP(ms: seq<Machine>, owners: seq<Machine>, a: Machine, b: Machine)
    requires OwnersOf(ms, owners) && a in owners && b in owners && IP(a) == IP(b)
    ensures a == b
  {
    var i :| 0 <= i < |owners| && owners[i] == a;
    var j :| 0 <= j < |owners| && owners[j] == b;
  }

  lemma OwnersIncluded(ms: seq<Machine>, a: seq<Machine>, b: seq<Machine>, m: Machine)
    requires UniqueNames(ms) && OwnersOf(ms, a) && OwnersOf(ms, b) && m in a
    ensures m in b
  {
    assert Held(b, m);
    var o :| o in b && IP(o) == IP(m) && Leq(o.name, m.name);
    assert Held(a, o);
    var p :| p in a && IP(p) == IP(o) && Leq(p.name, o.name);
    OneOwnerPerIP(ms, a, p, m);
    LeqAntisymmetric(m.name, o.name);
  }

  /** The three clauses of OwnersOf leave no choice for uniquely named machines,
      and they only speak of which machines there are: the input order, which is
      the random order of a Go map, cannot show in the pool. */
  lemma {:induction false} PoolIndependentOfOrder(ms: seq<Machine>, ms': seq<Machine>,
                                                  owners: seq<Machine>, owners': seq<Machine>)
    requires UniqueNames(ms)
    requires forall m :: m in ms <==> m in ms'
    requires OwnersOf(ms, owners) && OwnersOf(ms', owners')
    ensures owners == owners'
  {
    OwnersOfSame(ms, ms', owners');
    Distinct(ms, owners);
    Distinct(ms, owners');
    hide OwnersOf, UniqueNames;
    forall m | m in owners ensures m in owners' { OwnersIncluded(ms, owners, owners', m); }
    forall m | m in owners' ensures m in owners { OwnersIncluded(ms, owners', owners, m); }
    assert multiset(owners) == multiset(owners');
    SortedUnique(owners, owners', ByName);
  }

  /** Owners are sorted, each occurs once, and no two of them compare equal. */
  lemma Distinct(ms: seq<Machine>, owners: seq<Machine>)
    requires UniqueNames(ms) && OwnersOf(ms, owners)
    ensures Sorted(owners, ByName) && TotalPreorder(ByName) && Distinguishes(ByName, owners)
    ensures forall m :: multiset(owners)[m] == if m in owners then 1 else 0
  {
    NoRepeats(owners);
    ByNameIsPreorder();
    hide IP;
    forall a, b | a in owners && b in owners && ByName(a, b) && ByName(b, a) ensures a == b {
      LeqAntisymmetric(a.name, b.name);
    }
  }

  lemma SameMembers(a: seq<Machine>, b: seq<Machine>)
    requires multiset(a) == multiset(b)
    ensures forall m :: m in a <==> m in b
  {
    assert forall m :: m in a <==> m in multiset(a);
    assert forall m :: m in b <==> m in multiset(b);
  }

  lemma OwnersOfSame(ms: seq<Machine>, ms': seq<Machine>, owners: seq<Machine>)
    requires OwnersOf(ms', owners) && forall m :: m in ms <==> m in ms'
    ensures OwnersOf(ms, owners)
  {
    hide IP, Held;
  }

  lemma NoRepeats(owners: seq<Machine>)
    requires forall i, j :: 0 <= i < j < |owners| ==> IP(owners[i]) != IP(owners[j])
    ensures forall m :: multiset(owners)[m] == if m in owners then 1 else 0
  {
    if owners != [] {
      var before, m := owners[..|owners| - 1], owners[|owners| - 1];
      assert owners == before + [m];
      NoRepeats(before);
    }
  }

  function Present(refs: seq<Option<Machine>>): seq<Machine>
  {
    if refs == [] then []
    else
      var before := Present(refs[..|refs| - 1]);
      if refs[|refs| - 1].Some? then before + [refs[|refs| - 1].value] else before
  }

  /** APIServerTargets: drop nil entries, sort, then keep the first machine of each IP. */
  method APIServerTargets(refs: seq<Option<Machine>>, sha: Digest) returns (targets: seq<Target>)
    ensures exists owners :: OwnersOf(Present(refs), owners) && targets == Targets(owners, sha)
    ensures UniqueNames(Present(refs)) ==> targets == DesiredPool(Present(refs), sha)
  {
    var present := [];
    for i := 0 to |refs|
      invariant present == Present(refs[..i])
    {
      assert refs[..i + 1][..i] == refs[..i];
      if refs[i].Some? { present := present + [refs[i].value]; }
    }
    assert refs[..|refs|] == refs;
    ByNameIsPreorder();
    var sorted := SortFunc(present, ByName);

    targets := ScanOwners(sorted, sha);
    ScanCorrect(present, sorted);
  }

  /** The loop over the sorted machines: each new address goes to the first that has it. */
  method ScanOwners(sorted: seq<Machine>, sha: Digest) returns (targets: seq<Target>)
    ensures targets == Targets(Owners(sorted), sha)
  {
    targets := [];
    ghost var owners: seq<Machine> := [];
    var seen: set<string> := {};
    for i := 0 to |sorted|
      invariant owners == Owners(sorted[..i])
      invariant targets == Targets(owners, sha)
      invariant forall ip :: ip in seen <==> exists o :: o in owners && IP(o) == ip
    {
      assert sorted[..i + 1][..i] == sorted[..i];
      var ip := FirstInternalIP(sorted[i].addresses);
      if |ip| == 0 || ip in seen { continue; }
      seen := seen + {ip};
      targets := targets + [Target(TargetName(sorted[i].name, sha), ip)];
      owners := owners + [sorted[i]];
    }
    assert sorted[..|sorted|] == sorted;
  }

  /** Any name-sorted permutation, scanned, gives owners of the original list. */
  lemma ScanCorrect(ms: seq<Machine>, sorted: seq<Machine>)
    requires Sorted(sorted, ByName) && multiset(sorted) == multiset(ms)
    ensures OwnersOf(ms, Owners(sorted))
    ensures UniqueNames(ms) ==> Owners(sorted) == Owners(Sort(ms, ByName))
  {
    OwnersCorrect(sorted);
    SameMembers(ms, sorted);
    OwnersOfSame(ms, sorted, Owners(sorted));
    PoolMembers(ms);
    hide OwnersOf, Owners, Sort, UniqueNames;
    if UniqueNames(ms) {
      PoolIndependentOfOrder(ms, ms, Owners(sorted), Owners(Sort(ms, ByName)));
    }
  }

  // ------------------------------------------------------------ the watch filter

  /** collections.ControlPlaneMachines and collections.ActiveMachines. */
  predicate Eligible(m: Machine, cluster: string)
  {
    && ClusterNameLabel in m.labels && m.labels[ClusterNameLabel] == cluster
    && ControlPlaneLabel in m.labels
    && m.deletedAt == 0
  }

  function EligibleOf(ms: seq<Machine>, cluster: string): seq<Machine>
  {
    if ms == [] then []
    else (if Eligible(ms[0], cluster) then [ms[0]] else []) + EligibleOf(ms[1..], cluster)
  }

  lemma EligibleOfMeans(ms: seq<Machine>, cluster: string)
    ensures forall m :: m in EligibleOf(ms, cluster) <==>
              && m in ms && m.deletedAt == 0 && ControlPlaneLabel in m.labels
              && ClusterNameLabel in m.labels && m.labels[ClusterNameLabel] == cluster
  {
  }

  /** A control-plane machine of the cluster that is not being deleted and reports ip. */
  predicate Fronted(m: Machine, cluster: string, ip: string)
  {
    && m.deletedAt == 0 && ControlPlaneLabel in m.labels
    && ClusterNameLabel in m.labels && m.labels[ClusterNameLabel] == cluster
    && Reports(m, ip)
  }

  /** The pool leads to exactly those machines' addresses, each under the name of the
      least-named machine that reports it. */
  ghost predicate FrontsControlPlane(pool: seq<Target>, ms: seq<Machine>, cluster: string, sha: Digest)
  {
    && (forall t :: t in pool ==> exists m :: Owns(m, t, ms, cluster, sha))
    && (forall m, ip :: m in ms && Fronted(m, cluster, ip) ==> exists t :: t in pool && t.ip == ip)
  }

  ghost predicate Owns(m: Machine, t: Target, ms: seq<Machine>, cluster: string, sha: Digest)
  {
    m in ms && Fronted(m, cluster, t.ip) && t.name == TargetName(m.name, sha) && Least(m, ms, cluster)
  }

  /** No machine that reports the same address has a smaller name. */
  ghost predicate Least(m: Machine, ms: seq<Machine>, cluster: string)
  {
    forall o, ip :: o in ms && Fronted(o, cluster, ip) && Fronted(m, cluster, ip) ==> Leq(m.name, o.name)
  }

  lemma {:induction false} DesiredFrontsControlPlane(ms: seq<Machine>, cluster: string, sha: Digest)
    ensures FrontsControlPlane(DesiredPool(EligibleOf(ms, cluster), sha), ms, cluster, sha)
  {
    var owners := Owners(Sort(EligibleOf(ms, cluster), ByName));
    PoolMembers(EligibleOf(ms, cluster));
    hide Fronted, EligibleOf, Owners, Sort, TargetName, OwnersOf, Least;
    forall t | t in Targets(owners, sha)
      ensures exists m :: Owns(m, t, ms, cluster, sha)
    {
      var i :| 0 <= i < |owners| && Targets(owners, sha)[i] == t;
      OwnerIsFronted(ms, cluster, owners, i);
      OwnerIsLeast(ms, cluster, owners, i);
      assert Owns(owners[i], t, ms, cluster, sha);
    }
    forall m, ip | m in ms && Fronted(m, cluster, ip) ensures exists t :: t in Targets(owners, sha) && t.ip == ip {
      var i := FrontedIsHeld(ms, cluster, owners, m, ip);
      assert Targets(owners, sha)[i] in Targets(owners, sha);
    }
  }

  lemma OwnerIsFronted(ms: seq<Machine>, cluster: string, owners: seq<Machine>, i: nat)
    requires OwnersOf(EligibleOf(ms, cluster), owners) && i < |owners|
    ensures owners[i] in ms && Fronted(owners[i], cluster, IP(owners[i]))
  {
    EligibleOfMeans(ms, cluster);
    hide IP, EligibleOf, Reports;
    assert owners[i] in owners;
    ReportsIff(owners[i], IP(owners[i]));
  }

  lemma FrontedIsHeld(ms: seq<Machine>, cluster: string, owners: seq<Machine>, m: Machine, ip: string) returns (i: nat)
    requires OwnersOf(EligibleOf(ms, cluster), owners) && m in ms && Fronted(m, cluster, ip)
    ensures i < |owners| && IP(owners[i]) == ip
  {
    EligibleOfMeans(ms, cluster);
    hide IP, EligibleOf, Reports;
    ReportsIff(m, ip);
    assert m in EligibleOf(ms, cluster) && Held(owners, m);
    var o :| o in owners && IP(o) == IP(m);
    i :| 0 <= i < |owners| && owners[i] == o;
  }

  lemma OwnerIsLeast(ms: seq<Machine>, cluster: string, owners: seq<Machine>, i: nat)
    requires OwnersOf(EligibleOf(ms, cluster), owners) && i < |owners|
    ensures Least(owners[i], ms, cluster)
  {
    EligibleOfMeans(ms, cluster);
    hide IP, EligibleOf, Reports;
    forall o, ip | o in ms && Fronted(o, cluster, ip) && Fronted(owners[i], cluster, ip)
      ensures Leq(owners[i].name, o.name)
    {
      ReportsIff(o, ip);
      ReportsIff(owners[i], ip);
      assert o in EligibleOf(ms, cluster) && Held(owners, o);
      var x :| x in owners && IP(x) == IP(o) && Leq(x.name, o.name);
      var k :| 0 <= k < |owners| && owners[k] == x;
      assert k == i;
    }
  }

  /** machineTargetPoolChanged, for two Machine objects. */
  predicate MachineTargetPoolChanged(old_: Machine, new_: Machine)
  {
    || old_.addresses != new_.addresses
    || (old_.deletedAt == 0) != (new_.deletedAt == 0)
    || old_.labels != new_.labels
  }

  /** What the pool can see of two machines agrees. */
  ghost predicate Alike(a: seq<Machine>, b: seq<Machine>)
  {
    |a| == |b| && forall i :: 0 <= i < |a| ==> a[i].name == b[i].name && a[i].addresses == b[i].addresses
  }

  lemma EligibleAlike(a: seq<Machine>, b: seq<Machine>, cluster: string)
    requires |a| == |b|
    requires forall i :: 0 <= i < |a| ==> a[i].name == b[i].name && !MachineTargetPoolChanged(a[i], b[i])
    ensures Alike(EligibleOf(a, cluster), EligibleOf(b, cluster))
  {
    if a != [] { EligibleAlike(a[1..], b[1..], cluster); }
  }

  lemma InsertAlike(m: Machine, n: Machine, a: seq<Machine>, b: seq<Machine>)
    requires m.name == n.name && m.addresses == n.addresses && Alike(a, b)
    ensures Alike(Insert(m, a, ByName), Insert(n, b, ByName))
  {
    if a != [] { InsertAlike(m, n, a[1..], b[1..]); }
  }

  lemma SortAlike(a: seq<Machine>, b: seq<Machine>)
    requires Alike(a, b)
    ensures Alike(Sort(a, ByName), Sort(b, ByName))
  {
    if a != [] {
      SortAlike(a[1..], b[1..]);
      InsertAlike(a[0], b[0], Sort(a[1..], ByName), Sort(b[1..], ByName));
    }
  }

  lemma OwnersAlike(a: seq<Machine>, b: seq<Machine>)
    requires Alike(a, b)
    ensures Alike(Owners(a), Owners(b))
  {
    if a != [] {
      var n := |a| - 1;
      OwnersAlike(a[..n], b[..n]);
      var x, y := Owners(a[..n]), Owners(b[..n]);
      if o :| o in x && IP(o) == IP(a[n]) {
        var i :| 0 <= i < |x| && x[i] == o;
        assert y[i] in y && IP(y[i]) == IP(b[n]);
      }
      if o :| o in y && IP(o) == IP(b[n]) {
        var i :| 0 <= i < |y| && y[i] == o;
        assert x[i] in x && IP(x[i]) == IP(a[n]);
      }
    }
  }

  /** An update event that the filter drops cannot change the desired pool: in any
      list of machines, replacing one by its updated version of the same name gives
      the same targets after the control-plane and active filters. */
  lemma {:induction false} DroppedEventKeepsPool(ms: seq<Machine>, k: nat, updated: Machine, cluster: string,
                                                 sha: Digest)
    requires k < |ms|
    requires updated.name == ms[k].name && !MachineTargetPoolChanged(ms[k], updated)
    ensures DesiredPool(EligibleOf(ms[k := updated], cluster), sha) == DesiredPool(EligibleOf(ms, cluster), sha)
  {
    var a, b := EligibleOf(ms, cluster), EligibleOf(ms[k := updated], cluster);
    EligibleAlike(ms, ms[k := updated], cluster);
    SortAlike(a, b);
    OwnersAlike(Sort(a, ByName), Sort(b, ByName));
  }

  /** And it drops every update that leaves labels and addresses alone and neither
      starts nor ends a deletion. */
  lemma StatusUpdatesDropped(m: Machine, revision: nat, deletedAt: nat)
    requires deletedAt == 0 <==> m.deletedAt == 0
    ensures !MachineTargetPoolChanged(m, m.(revision := revision, deletedAt := deletedAt))
  {
  }

  // -------------------------------------------------------------- comparing pools

  predicate KeyLeq(a: Target, b: Target)
  {
    if a.name == b.name then Leq(a.ip, b.ip) else Leq(a.name, b.name)
  }

  lemma KeyLeqIsOrder()
    ensures TotalPreorder(KeyLeq)
    ensures forall s: seq<Target> {:trigger Distinguishes(KeyLeq, s)} :: Distinguishes(KeyLeq, s)
  {
    forall a: Target, b: Target ensures KeyLeq(a, b) || KeyLeq(b, a) {
      LeqTotal(a.name, b.name);
      LeqTotal(a.ip, b.ip);
    }
    forall a: Target, b: Target | KeyLeq(a, b) && KeyLeq(b, a) ensures a == b {
      if a.name == b.name { LeqAntisymmetric(a.ip, b.ip); } else { LeqAntisymmetric(a.name, b.name); }
    }
    forall a: Target, b: Target, c: Target | KeyLeq(a, b) && KeyLeq(b, c) ensures KeyLeq(a, c) {
      if a.name == b.name == c.name {
        LeqTransitive(a.ip, b.ip, c.ip);
      } else if a.name != b.name && b.name != c.name {
        LeqTransitive(a.name, b.name, c.name);
        if a.name == c.name { LeqAntisymmetric(a.name, b.name); }
      }
    }
  }

  /** sortedTargetKeys. */
  method SortedTargetKeys(targets: seq<Target>) returns (keys: seq<Target>)
    ensures Sorted(keys, KeyLeq) && multiset(keys) == multiset(targets)
  {
    keys := [];
    for i := 0 to |targets|
      invariant keys == targets[..i]
    {
      keys := keys + [Target(targets[i].name, targets[i].ip)];
    }
    assert targets[..|targets|] == targets;
    KeyLeqIsOrder();
    keys := SortFunc(keys, KeyLeq);
  }

  /** sameTargets decides equality as multisets of (name, IP). */
  method SameTargets(current: seq<Target>, desired: seq<Target>) returns (same: bool)
    ensures same <==> multiset(current) == multiset(desired)
  {
    if |current| != |desired| {
      assert |multiset(current)| != |multiset(desired)|;
      return false;
    }
    var a := SortedTargetKeys(current);
    var b := SortedTargetKeys(desired);
    same := a == b;
    KeyLeqIsOrder();
    if multiset(a) == multiset(b) { SortedUnique(a, b, KeyLeq); }
  }
}
