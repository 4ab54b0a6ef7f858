/** Reconciliation of the bastion's SSH rules from a snapshot
    (ensureBastionSecurityGroupRules in cloud/sdk_client.go). */
module FirewallRules {
  import opened Api

  datatype Rule = Rule(
    id: Id, direction: string, portMin: int, portMax: int, protocol: Option<string>, ipRange: string)

  /** isSSHRule: ingress TCP/22, whichever CIDR it allows. */
  predicate SSH(r: Rule)
  {
    r.direction == "ingress" && r.portMin == 22 && r.portMax == 22 && r.protocol == Some("tcp")
  }

  function Cidrs(rules: seq<Rule>): set<string>
  {
    set r | r in rules && SSH(r) :: r.ipRange
  }

  /** The rules that are none of this code's business, in order. */
  function Others(rules: seq<Rule>): seq<Rule>
  {
    if rules == [] then [] else (if SSH(rules[0]) then [] else [rules[0]]) + Others(rules[1..])
  }

  function Without(rules: seq<Rule>, ids: set<Id>): seq<Rule>
  {
    if rules == [] then [] else (if rules[0].id in ids then [] else [rules[0]]) + Without(rules[1..], ids)
  }

  function Desired(cidrs: seq<string>): set<string> { set c | c in cidrs }

  /** CIDRs that cannot be revoked: undesired SSH rules the API listed without an ID. */
  function Stuck(rules: seq<Rule>, desired: set<string>): set<string>
  {
    set r | r in rules && SSH(r) && r.ipRange !in desired && r.id == 0 :: r.ipRange
  }

  predicate UniqueIds(rules: seq<Rule>)
  {
    forall a, b :: a in rules && b in rules && a.id == b.id != 0 ==> a == b
  }

  lemma OthersConcat(a: seq<Rule>, b: seq<Rule>)
    ensures Others(a + b) == Others(a) + Others(b)
  {
    if a == [] {
      assert a + b == b;
    } else {
      assert (a + b)[1..] == a[1..] + b;
    }
  }

  lemma OthersOfSSH(a: seq<Rule>)
    requires forall r :: r in a ==> SSH(r)
    ensures Others(a) == []
  {
  }

  lemma WithoutMembers(rules: seq<Rule>, ids: set<Id>)
    ensures forall r :: r in Without(rules, ids) <==> r in rules && r.id !in ids
  {
  }

  lemma OthersWithout(rules: seq<Rule>, ids: set<Id>)
    requires forall r :: r in rules && r.id in ids ==> SSH(r)
    ensures Others(Without(rules, ids)) == Others(rules)
  {
    if rules != [] {
      assert rules[0] in rules;
      OthersWithout(rules[1..], ids);
      OthersConcat(if rules[0].id in ids then [] else [rules[0]], Without(rules[1..], ids));
    }
  }

  lemma WithoutNothing(rules: seq<Rule>)
    ensures Without(rules, {}) == rules
  {
  }

  lemma {:induction false} WithoutConcat(a: seq<Rule>, b: seq<Rule>, ids: set<Id>)
    ensures Without(a + b, ids) == Without(a, ids) + Without(b, ids)
  {
    if a == [] {
      assert a + b == b;
    } else {
      WithoutConcat(a[1..], b, ids);
      assert (a + b)[1..] == a[1..] + b && (a + b)[0] == a[0];
    }
  }

  lemma {:induction false} WithoutTwice(rules: seq<Rule>, ids: set<Id>, id: Id)
    ensures Without(Without(rules, ids), {id}) == Without(rules, ids + {id})
  {
    if rules != [] {
      WithoutTwice(rules[1..], ids, id);
      var kept := if rules[0].id in ids then [] else [rules[0]];
      WithoutConcat(kept, Without(rules[1..], ids), {id});
    }
  }

  /** Deleting one more of the snapshot's rules leaves the added ones alone. */
  lemma WithoutOneMore(rules: seq<Rule>, added: seq<Rule>, ids: set<Id>, id: Id)
    requires forall r :: r in added ==> r.id != id
    ensures Without(Without(rules, ids) + added, {id}) == Without(rules, ids + {id}) + added
  {
    WithoutConcat(Without(rules, ids), added, {id});
    WithoutTwice(rules, ids, id);
    WithoutKeepsAll(added, id);
  }

  lemma WithoutKeepsAll(rules: seq<Rule>, id: Id)
    requires forall r :: r in rules ==> r.id != id
    ensures Without(rules, {id}) == rules
  {
  }

  /** One outcome for each call the reconciliation can make. */
  datatype Calls = Calls(list: Outcome, create: string -> Outcome, remove: Id -> Outcome)

  class SecurityGroup {
    var rules: seq<Rule>
    var nextID: Id
    ghost var created: seq<string> // CIDRs of all rules created so far, in order
    ghost var writes: nat

    ghost predicate Valid()
      reads this
    {
      UniqueIds(rules) && 0 < nextID && forall r :: r in rules ==> r.id < nextID
    }

    method CreateRule(cidr: string, o: Outcome) returns (r: Result<()>)
      requires Valid()
      modifies this
      ensures Valid()
      ensures created == old(created) + [cidr] && writes == old(writes) + 1
      ensures rules == old(rules) + (if o.Rejected? then []
                                     else [Rule(old(nextID), "ingress", 22, 22, Some("tcp"), cidr)])
      ensures nextID >= old(nextID) && r.Ok? == o.Works?
    {
      created, writes := created + [cidr], writes + 1;
      if o.Rejected? { return Err(o.error); }
      rules := rules + [Rule(nextID, "ingress", 22, 22, Some("tcp"), cidr)];
      nextID := nextID + 1;
      if o.Interrupted? { return Err(o.error); }
      return Ok(());
    }

    method DeleteRule(id: Id, o: Outcome) returns (r: Result<()>)
      requires Valid()
      modifies this`rules, this`writes
      ensures Valid() && writes == old(writes) + 1
      ensures rules == if o.Rejected? then old(rules) else Without(old(rules), {id})
      ensures r == if !o.Works? then Err(o.error)
                   else if exists x :: x in old(rules) && x.id == id then Ok(()) else Err(NotFound)
    {
      writes := writes + 1;
      if o.Rejected? { return Err(o.error); }
      WithoutMembers(rules, {id});
      var before := |rules|;
      DropShortens(rules, id);
      rules := Drop(rules, id);
      if o.Interrupted? { return Err(o.error); }
      return if |rules| < before then Ok(()) else Err(NotFound);
    }

    static lemma DropShortens(rules: seq<Rule>, id: Id)
      ensures |Drop(rules, id)| < |rules| <==> exists x :: x in rules && x.id == id
      ensures |Drop(rules, id)| <= |rules|
    {
      if rules != [] {
        DropShortens(rules[1..], id);
        assert rules == [rules[0]] + rules[1..];
      }
    }

    static function Drop(rules: seq<Rule>, id: Id): (r: seq<Rule>)
      ensures r == Without(rules, {id})
    {
      if rules == [] then [] else (if rules[0].id == id then [] else [rules[0]]) + Drop(rules[1..], id)
    }

    static method HasSSHRule(rules: seq<Rule>, cidr: string) returns (r: bool)
      ensures r <==> exists x :: x in rules && x.ipRange == cidr && x.direction == "ingress" &&
                                 x.portMin == 22 && x.portMax == 22 && x.protocol == Some("tcp")
      ensures r <==> cidr in Cidrs(rules)
    {
      for i := 0 to |rules|
        invariant forall j :: 0 <= j < i ==> !(rules[j].ipRange == cidr && SSH(rules[j]))
      {
        if rules[i].ipRange == cidr && SSH(rules[i]) { return true; }
      }
      return false;
    }

    /** First loop: create a rule for each wanted CIDR the snapshot lacks. */
    method CreateMissing(existing: seq<Rule>, cidrs: seq<string>, create: string -> Outcome)
      returns (r: Result<()>, desired: set<string>, ghost added: seq<Rule>)
      requires Valid() && rules == existing
      modifies this
      ensures Valid()
      ensures rules == existing + added && Added(Desired(cidrs), added, old(nextID))
      ensures old(created) <= created && NewOnly(created[|old(created)|..], existing, Desired(cidrs))
      ensures r.Ok? ==> "" !in cidrs && desired == Desired(cidrs) && desired <= Cidrs(existing) + Cidrs(added)
      ensures Cidrs(existing) == Desired(cidrs) ==> added == [] && writes == old(writes)
    {
      hide SSH, Cidrs;
      added, desired := [], {};
      ghost var log: seq<string> := [];
      NoCidrs();
      for i := 0 to |cidrs|
        invariant Valid() && nextID >= old(nextID)
        invariant desired == set c | c in cidrs[..i]
        invariant forall c :: c in desired ==> |c| > 0
        invariant rules == existing + added && Added(desired, added, old(nextID))
        invariant desired <= Cidrs(existing) + Cidrs(added)
        invariant created == old(created) + log && (forall c :: c in log ==> c in desired)
        invariant NewOnly(log, existing, Desired(cidrs))
        invariant writes == old(writes) + |log|
        invariant Cidrs(existing) == Desired(cidrs) ==> added == [] && log == []
      {
        var cidr := cidrs[i];
        assert cidrs[..i + 1] == cidrs[..i] + [cidr];
        assert cidr in Desired(cidrs) && desired <= Desired(cidrs);
        if |cidr| == 0 { return Err(InvalidInput), desired, added; }
        if cidr in desired { continue; }
        desired := desired + {cidr};
        var known := HasSSHRule(existing, cidr);
        if known { continue; }
        ghost var rule := Rule(nextID, "ingress", 22, 22, Some("tcp"), cidr);
        NewRuleIsSSH(nextID, cidr);
        r := CreateRule(cidr, create(cidr));
        log := log + [cidr];
        if !create(cidr).Rejected? {
          AddedCidrs(added, rule);
          added := added + [rule];
        }
        if r.Err? { return; }
      }
      assert cidrs[..|cidrs|] == cidrs;
      return Ok(()), desired, added;
    }

    /** Second loop: revoke the snapshot's SSH rules that are no longer wanted. */
    method RevokeUndesired(existing: seq<Rule>, desired: set<string>, remove: Id -> Outcome, ghost added: seq<Rule>)
      returns (r: Result<()>, ghost removed: set<Id>)
      requires Valid() && rules == existing + added
      requires UniqueIds(existing) && forall x, y :: x in existing && y in added ==> x.id < y.id
      modifies this`rules, this`writes
      ensures Valid()
      ensures rules == Without(existing, removed) + added && Removable(existing, desired, removed)
      ensures r.Ok? && (forall id :: Truthful(remove(id))) ==> Complete(existing, desired, removed)
      ensures Cidrs(existing) <= desired ==> removed == {} && writes == old(writes)
    {
      hide SSH, Without;
      removed := {};
      WithoutNothing(existing);
      for i := 0 to |existing|
        invariant Valid()
        invariant rules == Without(existing, removed) + added
        invariant Removable(existing, desired, removed)
        invariant (forall id :: Truthful(remove(id))) ==> Complete(existing[..i], desired, removed)
        invariant Cidrs(existing) <= desired ==> removed == {} && writes == old(writes)
      {
        var rule := existing[i];
        assert existing[..i + 1] == existing[..i] + [rule];
        if !SSH(rule) || rule.ipRange in desired || rule.id == 0 { continue; }
        assert rule.ipRange in Cidrs(existing);
        WithoutOneMore(existing, added, removed, rule.id);
        OneMoreRemovable(existing, rule, desired, removed);
        r := DeleteRule(rule.id, remove(rule.id));
        if !remove(rule.id).Rejected? { removed := removed + {rule.id}; }
        if r.Err? && r.error != NotFound { return; }
      }
      assert existing[..|existing|] == existing;
      return Ok(()), removed;
    }

    /** ensureBastionSecurityGroupRules. Every intermediate state is the final state
        of the run in which the next call is rejected, so the bounds below hold at
        every point and not only at the end. */
    method EnsureRules(cidrs: seq<string>, calls: Calls) returns (r: Result<()>)
      requires Valid()
      modifies this
      ensures Valid()
      // never wider than old and new together, never less than what both allow
      ensures Cidrs(old(rules)) * Desired(cidrs) <= Cidrs(rules) <= Cidrs(old(rules)) + Desired(cidrs)
      // rules of any other kind are untouched
      ensures Others(rules) == Others(old(rules))
      ensures forall x :: x in old(rules) && x !in rules ==>
                x.direction == "ingress" && x.portMin == 22 && x.portMax == 22 && x.protocol == Some("tcp") &&
                x.ipRange !in cidrs
      // no CIDR is created twice, nor one that was already there
      ensures old(created) <= created && NewOnly(created[|old(created)|..], old(rules), Desired(cidrs))
      // success reaches exactly the desired set, unless a rule could not be addressed
      ensures r.Ok? && (forall id :: Truthful(calls.remove(id))) ==>
                Cidrs(rules) == Desired(cidrs) + Stuck(old(rules), Desired(cidrs))
      ensures r.Ok? ==> forall c :: c in cidrs ==>
                c != "" && exists x :: x in rules && x.ipRange == c && x.direction == "ingress" &&
                                       x.portMin == 22 && x.portMax == 22 && x.protocol == Some("tcp")
      // a matching group is left alone
      ensures Cidrs(old(rules)) == Desired(cidrs) ==> rules == old(rules) && writes == old(writes)
    {
      if !calls.list.Works? { return Err(calls.list.error); }
      var existing := rules;
      var desired;
      ghost var added, removed;
      r, desired, added := CreateMissing(existing, cidrs, calls.create);
      if r.Err? {
        AddedBounds(existing, Desired(cidrs), added, old(nextID));
        assert forall x :: x in existing ==> x in rules;
        return;
      }
      r, removed := RevokeUndesired(existing, desired, calls.remove, added);
      RemovedBounds(existing, desired, added, removed, old(nextID));
      RemovedOnFields(existing, desired, added, removed);
      WithoutNothing(existing);
      if r.Ok? { CidrsOnFields(rules, cidrs); }
      hide SSH, Cidrs, Without, Others, Added, Removable, NewOnly, Stuck, UniqueIds;
    }
  }

  /** What goes, on its fields. */
  lemma RemovedOnFields(existing: seq<Rule>, desired: set<string>, added: seq<Rule>, removed: set<Id>)
    requires Removable(existing, desired, removed)
    ensures forall x :: x in existing && x !in Without(existing, removed) + added ==>
              x.direction == "ingress" && x.portMin == 22 && x.portMax == 22 && x.protocol == Some("tcp") &&
              x.ipRange !in desired
  {
    WithoutMembers(existing, removed);
    hide Without;
  }

  /** What is allowed, on the fields of the rules that allow it. */
  lemma CidrsOnFields(rules: seq<Rule>, cidrs: seq<string>)
    requires Desired(cidrs) <= Cidrs(rules)
    ensures forall c :: c in cidrs ==>
              exists x :: x in rules && x.ipRange == c && x.direction == "ingress" &&
                          x.portMin == 22 && x.portMax == 22 && x.protocol == Some("tcp")
  {
    forall c | c in cidrs
      ensures exists x :: x in rules && x.ipRange == c && x.direction == "ingress" &&
                          x.portMin == 22 && x.portMax == 22 && x.protocol == Some("tcp")
    {
      assert c in Desired(cidrs);
      var x :| x in rules && SSH(x) && x.ipRange == c;
    }
  }

  /** Every addressable unwanted SSH rule is gone. */
  ghost predicate Complete(existing: seq<Rule>, desired: set<string>, removed: set<Id>)
  {
    forall r :: r in existing && SSH(r) && r.ipRange !in desired && r.id != 0 ==> r.id in removed
  }

  lemma OneMoreRemovable(existing: seq<Rule>, rule: Rule, desired: set<string>, removed: set<Id>)
    requires UniqueIds(existing) && Removable(existing, desired, removed)
    requires rule in existing && rule.id != 0 && SSH(rule) && rule.ipRange !in desired
    ensures Removable(existing, desired, removed + {rule.id})
  {
  }

  ghost predicate Added(desired: set<string>, added: seq<Rule>, from: Id)
  {
    forall r :: r in added ==> SSH(r) && r.ipRange in desired && r.id >= from
  }

  /** Pairwise different, wanted, and not there before. */
  ghost predicate NewOnly(log: seq<string>, existing: seq<Rule>, desired: set<string>)
  {
    && (forall i, j :: 0 <= i < j < |log| ==> log[i] != log[j])
    && (forall c :: c in log ==> c in desired && c !in Cidrs(existing))
  }

  ghost predicate Removable(existing: seq<Rule>, desired: set<string>, removed: set<Id>)
  {
    0 !in removed && forall r :: r in existing && r.id in removed ==> SSH(r) && r.ipRange !in desired
  }

  lemma NewRuleIsSSH(id: Id, cidr: string)
    ensures SSH(Rule(id, "ingress", 22, 22, Some("tcp"), cidr))
  {
  }

  lemma NoCidrs()
    ensures Cidrs([]) == {}
  {
  }

  lemma AddedCidrs(added: seq<Rule>, rule: Rule)
    requires SSH(rule)
    ensures Cidrs(added + [rule]) == Cidrs(added) + {rule.ipRange}
  {
    assert rule in added + [rule];
    forall c | c in Cidrs(added) ensures c in Cidrs(added + [rule]) {
      var r :| r in added && SSH(r) && r.ipRange == c;
      assert r in added + [rule];
    }
  }

  lemma CidrsConcat(a: seq<Rule>, b: seq<Rule>)
    ensures Cidrs(a + b) == Cidrs(a) + Cidrs(b)
  {
    forall c | c in Cidrs(a) + Cidrs(b) ensures c in Cidrs(a + b) {
      var r :| (r in a || r in b) && SSH(r) && r.ipRange == c;
      assert r in a + b;
    }
  }

  lemma AddedBounds(existing: seq<Rule>, all: set<string>, added: seq<Rule>, from: Id)
    requires Added(all, added, from)
    ensures Cidrs(existing) * all <= Cidrs(existing + added) <= Cidrs(existing) + all
    ensures Others(existing + added) == Others(existing)
  {
    CidrsConcat(existing, added);
    OthersConcat(existing, added);
    OthersOfSSH(added);
  }

  lemma RemovedBounds(existing: seq<Rule>, desired: set<string>, added: seq<Rule>, removed: set<Id>, from: Id)
    requires Added(desired, added, from) && Removable(existing, desired, removed)
    requires desired <= Cidrs(existing) + Cidrs(added)
    ensures var now := Without(existing, removed) + added;
            && Cidrs(existing) * desired <= Cidrs(now) <= Cidrs(existing) + desired
            && Others(now) == Others(existing)
            && (Complete(existing, desired, removed) ==> Cidrs(now) == desired + Stuck(existing, desired))
  {
    var kept := Without(existing, removed);
    WithoutMembers(existing, removed);
    CidrsConcat(kept, added);
    OthersConcat(kept, added);
    OthersOfSSH(added);
    OthersWithout(existing, removed);
    forall c | c in Cidrs(existing) * desired ensures c in Cidrs(kept) {
      var r :| r in existing && SSH(r) && r.ipRange == c;
      assert r in kept;
    }
    forall c | c in Stuck(existing, desired) ensures c in Cidrs(kept) {
      var r :| r in existing && SSH(r) && r.ipRange == c && r.ipRange !in desired && r.id == 0;
      assert r in kept;
    }
    forall c | c in Cidrs(kept) ensures c in Cidrs(existing) {
      var r :| r in kept && SSH(r) && r.ipRange == c;
      assert r in existing;
    }
  }
}
