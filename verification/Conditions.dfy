/** Status conditions (util/conditions.go), keyed by type; messages and times are left out. */
module Conditions {

  datatype Reason =
    | Available | Skipped | IsPaused | NotPaused
    | InfrastructureNotReady | InvalidFailureDomain | BootstrapInvalid | BootstrapNotReady
    | CredentialsInvalid | InstanceNotFound | InstanceError | ServerNotUp | BastionSSHAccessError
    | AvailabilityZonesError | NetworkNotFound | NetworkError | NetworkCreateError | NetworkInUse
    | MachineListError | LoadBalancerError | LoadBalancerTargetError | Provisioning | EndpointMissing
    | BastionError | InvalidBastionSpec | CloudInitRefError | Recreating

  datatype Condition = Condition(status: bool, reason: Reason)

  /** Each listed type gets the same status and reason, the last one last. */
  function SetAll<T(==)>(conditions: map<T, Condition>, types: seq<T>, status: bool, reason: Reason): map<T, Condition>
  {
    if types == [] then conditions
    else SetAll(conditions, types[..|types| - 1], status, reason)[types[|types| - 1] := Condition(status, reason)]
  }

  predicate IsTrue<T(==)>(conditions: map<T, Condition>, t: T)
  {
    t in conditions && conditions[t].status
  }

  /** All but the given types say what they said. */
  ghost predicate SameBut<T(!new)>(conditions: map<T, Condition>, after: map<T, Condition>, types: set<T>)
  {
    forall t :: t !in types ==> (t in conditions <==> t in after) && (t in after ==> after[t] == conditions[t])
  }

  /** SetConditions: one meta.SetStatusCondition per listed type. */
  method SetConditions<T(==)>(conditions: map<T, Condition>, types: seq<T>, status: bool, reason: Reason)
    returns (r: map<T, Condition>)
    ensures r == SetAll(conditions, types, status, reason)
    // every listed type says so now, and every other type says what it said
    ensures forall t :: t in types ==> t in r && r[t] == Condition(status, reason)
    ensures forall t :: t !in types ==> (t in r <==> t in conditions) && (t in r ==> r[t] == conditions[t])
  {
    r := conditions;
    for i := 0 to |types|
      invariant r == SetAll(conditions, types[..i], status, reason)
      invariant forall t :: t in types[..i] ==> t in r && r[t] == Condition(status, reason)
      invariant forall t :: t !in types[..i] ==> (t in r <==> t in conditions) && (t in r ==> r[t] == conditions[t])
    {
      assert types[..i + 1][..i] == types[..i] && types[..i + 1] == types[..i] + [types[i]];
      r := r[types[i] := Condition(status, reason)];
    }
    assert types[..|types|] == types;
  }

  /** The lists in use name one type or two. */
  lemma SetAllOfFew<T>(conditions: map<T, Condition>, a: T, b: T, status: bool, reason: Reason)
    ensures SetAll(conditions, [a], status, reason) == conditions[a := Condition(status, reason)]
    ensures SetAll(conditions, [a, b], status, reason) ==
            conditions[a := Condition(status, reason)][b := Condition(status, reason)]
  {
    assert [a][..0] == [] && [a, b][..1] == [a];
  }
}
