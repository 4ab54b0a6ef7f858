/** Defaulting and update admission (webhook/v1alpha1/validation_helpers.go), and
    what they guarantee over whole chains of updates. */
module Webhook {
  import opened Api

  datatype RootVolume = RootVolume(sizeGiB: int, performanceClass: string, deleteOnTermination: Option<bool>)

  datatype MachineSpec = MachineSpec(
    providerID: Option<string>, imageID: string, machineType: string, availabilityZone: string,
    sshKeyName: string, rootVolume: RootVolume, networkID: string, securityGroups: seq<string>,
    additionalLabels: map<string, string>)

  datatype MachineObject = MachineObject(spec: MachineSpec, instanceID: string)

  datatype BastionSpec = BastionSpec(
    enabled: bool, imageID: string, machineType: string, sshKeyName: string,
    allowedCIDRs: seq<string>, rootVolume: RootVolume, cloudInitRef: Option<string>)

  datatype ClusterSpec = ClusterSpec(
    projectID: string, region: string, networkID: string, credentials: string,
    loadBalancerEnabled: bool, endpointHost: string, bastion: BastionSpec,
    additionalLabels: map<string, string>)

  datatype ClusterObject = ClusterObject(spec: ClusterSpec, loadBalancerID: string, bastionServerID: string)

  // ------------------------------------------------------------------ defaulting

  predicate Configured(v: RootVolume)
  {
    v.sizeGiB > 0 || v.performanceClass != "" || v.deleteOnTermination.Some?
  }

  function DefaultedVolume(v: RootVolume): RootVolume
  {
    if v.deleteOnTermination.None? then v.(deleteOnTermination := Some(true)) else v
  }

  function DefaultedMachine(s: MachineSpec): MachineSpec
  {
    if Configured(s.rootVolume) then s.(rootVolume := DefaultedVolume(s.rootVolume)) else s
  }

  function DefaultedCluster(s: ClusterSpec): ClusterSpec
  {
    if s.bastion.enabled || Configured(s.bastion.rootVolume)
    then s.(bastion := s.bastion.(rootVolume := DefaultedVolume(s.bastion.rootVolume))) else s
  }

  /** validateRootVolume finds nothing wrong. */
  predicate ValidVolume(v: RootVolume)
  {
    v.sizeGiB >= 0 && !(v.deleteOnTermination.Some? && v.sizeGiB == 0 && v.performanceClass == "")
  }

  class MachineSpecRef {
    var spec: MachineSpec

    constructor (s: MachineSpec)
      ensures spec == s
    {
      spec := s;
    }

    /** defaultMachineSpec, updating the spec in place. */
    method Default()
      modifies this
      ensures spec == DefaultedMachine(old(spec))
    {
      if Configured(spec.rootVolume) {
        if spec.rootVolume.deleteOnTermination.None? {
          spec := spec.(rootVolume := spec.rootVolume.(deleteOnTermination := Some(true)));
        }
      }
    }
  }

  /** Whether the volume goes with its server, once defaulted: as given, else yes as
      soon as anything about the volume is given, else left open. */
  function DeletedWithServer(v: RootVolume): Option<bool>
  {
    if v.deleteOnTermination.Some? then v.deleteOnTermination
    else if v.sizeGiB > 0 || v.performanceClass != "" then Some(true) else None
  }

  /** Defaulting fills in that one value and touches nothing else. An enabled bastion
      gets it even without a volume. */
  lemma DefaultingFillsIn(m: MachineSpec, c: ClusterSpec)
    ensures DefaultedMachine(m) ==
            m.(rootVolume := m.rootVolume.(deleteOnTermination := DeletedWithServer(m.rootVolume)))
    ensures var v := c.bastion.rootVolume;
            var kept := if c.bastion.enabled && v.deleteOnTermination.None? then Some(true) else DeletedWithServer(v);
            DefaultedCluster(c) == c.(bastion := c.bastion.(rootVolume := v.(deleteOnTermination := kept)))
  {
    var v := c.bastion.rootVolume;
    assert m == m.(rootVolume := m.rootVolume.(deleteOnTermination := m.rootVolume.deleteOnTermination));
    assert c == c.(bastion := c.bastion.(rootVolume := v.(deleteOnTermination := v.deleteOnTermination)));
  }

  /** Machine defaulting never turns a valid volume invalid or back. Cluster
      defaulting does exactly for an enabled bastion whose volume was left out. */
  lemma DefaultingAndVolumes(m: MachineSpec, c: ClusterSpec)
    ensures DefaultedMachine(DefaultedMachine(m)) == DefaultedMachine(m)
    ensures DefaultedCluster(DefaultedCluster(c)) == DefaultedCluster(c)
    ensures ValidVolume(DefaultedMachine(m).rootVolume) <==> ValidVolume(m.rootVolume)
    ensures ValidVolume(DefaultedCluster(c).bastion.rootVolume) <==>
            ValidVolume(c.bastion.rootVolume) && !(c.bastion.enabled && !Configured(c.bastion.rootVolume))
  {
  }

  // ------------------------------------------------------------- machine updates

  /** All that CreateServer reads is the same, a volume's missing flag being read as
      defaulting fills it in. */
  predicate SameCreation(o: MachineSpec, n: MachineSpec)
  {
    && o.imageID == n.imageID && o.machineType == n.machineType && o.availabilityZone == n.availabilityZone
    && o.sshKeyName == n.sshKeyName && o.networkID == n.networkID && o.securityGroups == n.securityGroups
    && SameVolume(o.rootVolume, n.rootVolume)
  }

  predicate SameVolume(o: RootVolume, n: RootVolume)
  {
    && o.sizeGiB == n.sizeGiB && o.performanceClass == n.performanceClass
    && DeletedWithServer(o) == DeletedWithServer(n)
  }

  ghost predicate MachineUpdateAllowed(o: MachineObject, n: MachineObject)
  {
    && SameCreation(o.spec, n.spec)
    && (o.spec.providerID.Some? ==> n.spec.providerID == o.spec.providerID)
    && (o.instanceID != "" ==> n.spec.additionalLabels == o.spec.additionalLabels)
  }

  datatype MachineError = CreationFieldsChanged | ProviderIDRemoved | ProviderIDChanged | LabelsChanged

  /** Comparing the defaulted specs without provider ID and labels compares exactly the
      creation fields. */
  lemma DefaultedAlike(o: MachineSpec, n: MachineSpec)
    ensures (DefaultedMachine(o.(providerID := None)).(additionalLabels := map[]) ==
             DefaultedMachine(n.(providerID := None)).(additionalLabels := map[])) <==> SameCreation(o, n)
  {
  }

  /** validateStackitMachineSpecUpdate. */
  method ValidateMachineUpdate(o: MachineObject, n: MachineObject) returns (errs: seq<MachineError>)
    ensures errs == [] <==> MachineUpdateAllowed(o, n)
    ensures CreationFieldsChanged !in errs <==>
              && o.spec.imageID == n.spec.imageID && o.spec.machineType == n.spec.machineType
              && o.spec.availabilityZone == n.spec.availabilityZone && o.spec.sshKeyName == n.spec.sshKeyName
              && o.spec.networkID == n.spec.networkID && o.spec.securityGroups == n.spec.securityGroups
              && o.spec.rootVolume.sizeGiB == n.spec.rootVolume.sizeGiB
              && o.spec.rootVolume.performanceClass == n.spec.rootVolume.performanceClass
              && DeletedWithServer(o.spec.rootVolume) == DeletedWithServer(n.spec.rootVolume)
    ensures ProviderIDRemoved in errs <==> o.spec.providerID.Some? && n.spec.providerID.None?
    ensures ProviderIDChanged in errs <==>
            o.spec.providerID.Some? && n.spec.providerID.Some? && n.spec.providerID != o.spec.providerID
    ensures LabelsChanged in errs <==> o.instanceID != "" && n.spec.additionalLabels != o.spec.additionalLabels
  {
    errs := [];
    var oldSpec := new MachineSpecRef(o.spec.(providerID := None));
    var newSpec := new MachineSpecRef(n.spec.(providerID := None));
    oldSpec.Default();
    newSpec.Default();
    DefaultedAlike(o.spec, n.spec);
    var oldLabels, newLabels := oldSpec.spec.additionalLabels, newSpec.spec.additionalLabels;
    oldSpec.spec := oldSpec.spec.(additionalLabels := map[]);
    newSpec.spec := newSpec.spec.(additionalLabels := map[]);
    if oldSpec.spec != newSpec.spec { errs := errs + [CreationFieldsChanged]; }
    if o.spec.providerID.Some? && n.spec.providerID.None? { errs := errs + [ProviderIDRemoved]; }
    if o.spec.providerID.Some? && n.spec.providerID.Some? && o.spec.providerID.value != n.spec.providerID.value {
      errs := errs + [ProviderIDChanged];
    }
    if o.instanceID != "" && oldLabels != newLabels { errs := errs + [LabelsChanged]; }
  }

  /** A user or controller write to the object: the defaulted request is admitted. */
  ghost predicate MachineWrite(o: MachineObject, n: MachineObject)
  {
    && n.instanceID == o.instanceID
    && n.spec == DefaultedMachine(n.spec) && ValidVolume(n.spec.rootVolume)
    && MachineUpdateAllowed(o, n)
  }

  /** Writes to the status subresource do not pass the webhook and keep the spec. */
  ghost predicate MachineHistory(h: seq<MachineObject>)
  {
    forall i :: 0 <= i < |h| - 1 ==> MachineWrite(h[i], h[i + 1]) || h[i + 1].spec == h[i].spec
  }

  /** Over any history: creation fields are those of the first object, a set
      providerID stays, and labels cannot move while an instance is recorded. */
  lemma {:induction false} MachineHistoryFrozen(h: seq<MachineObject>, i: nat, j: nat)
    requires MachineHistory(h) && i <= j < |h|
    ensures h[j].spec.imageID == h[i].spec.imageID && h[j].spec.machineType == h[i].spec.machineType
    ensures h[j].spec.availabilityZone == h[i].spec.availabilityZone && h[j].spec.sshKeyName == h[i].spec.sshKeyName
    ensures h[j].spec.networkID == h[i].spec.networkID && h[j].spec.securityGroups == h[i].spec.securityGroups
    ensures h[j].spec.rootVolume.sizeGiB == h[i].spec.rootVolume.sizeGiB
    ensures h[j].spec.rootVolume.performanceClass == h[i].spec.rootVolume.performanceClass
    ensures DeletedWithServer(h[j].spec.rootVolume) == DeletedWithServer(h[i].spec.rootVolume)
    ensures h[i].spec.providerID.Some? ==> h[j].spec.providerID == h[i].spec.providerID
    ensures (forall k :: i <= k < j ==> h[k].instanceID != "") ==>
            h[j].spec.additionalLabels == h[i].spec.additionalLabels
    decreases j
  {
    if i < j {
      MachineHistoryFrozen(h, i, j - 1);
      assert MachineWrite(h[j - 1], h[j - 1 + 1]) || h[j - 1 + 1].spec == h[j - 1].spec;
    }
  }

  // ------------------------------------------------------------- cluster updates

  /** All but the cloud-init reference is the same. */
  predicate SameBastion(o: BastionSpec, n: BastionSpec)
  {
    && o.enabled == n.enabled && o.imageID == n.imageID && o.machineType == n.machineType
    && o.sshKeyName == n.sshKeyName && o.allowedCIDRs == n.allowedCIDRs && o.rootVolume == n.rootVolume
  }

  ghost predicate ClusterUpdateAllowed(o: ClusterObject, n: ClusterObject)
  {
    && o.spec.projectID == n.spec.projectID && o.spec.region == n.spec.region
    && o.spec.networkID == n.spec.networkID && o.spec.credentials == n.spec.credentials
    && (o.loadBalancerID != "" ==> n.spec.loadBalancerEnabled == o.spec.loadBalancerEnabled)
    && (o.bastionServerID != "" && o.spec.bastion.enabled && n.spec.bastion.enabled ==>
          SameBastion(o.spec.bastion, n.spec.bastion))
  }

  datatype ClusterError = ProjectChanged | RegionChanged | NetworkChanged | CredentialsChanged
                        | LoadBalancerToggled | BastionChanged

  /** validateStackitClusterSpecUpdate. */
  method ValidateClusterUpdate(o: ClusterObject, n: ClusterObject) returns (errs: seq<ClusterError>)
    ensures errs == [] <==> ClusterUpdateAllowed(o, n)
    ensures ProjectChanged in errs <==> o.spec.projectID != n.spec.projectID
    ensures RegionChanged in errs <==> o.spec.region != n.spec.region
    ensures NetworkChanged in errs <==> o.spec.networkID != n.spec.networkID
    ensures CredentialsChanged in errs <==> o.spec.credentials != n.spec.credentials
    ensures LoadBalancerToggled in errs <==>
            o.loadBalancerID != "" && n.spec.loadBalancerEnabled != o.spec.loadBalancerEnabled
    ensures BastionChanged !in errs <==>
              || o.bastionServerID == "" || !o.spec.bastion.enabled || !n.spec.bastion.enabled
              || (&& o.spec.bastion.imageID == n.spec.bastion.imageID
                  && o.spec.bastion.machineType == n.spec.bastion.machineType
                  && o.spec.bastion.sshKeyName == n.spec.bastion.sshKeyName
                  && o.spec.bastion.allowedCIDRs == n.spec.bastion.allowedCIDRs
                  && o.spec.bastion.rootVolume == n.spec.bastion.rootVolume)
  {
    errs := ValidateIdentity(o.spec, n.spec);
    if o.loadBalancerID != "" && o.spec.loadBalancerEnabled != n.spec.loadBalancerEnabled {
      errs := errs + [LoadBalancerToggled];
    }
    if o.bastionServerID != "" && o.spec.bastion.enabled && n.spec.bastion.enabled {
      if o.spec.bastion.(cloudInitRef := None) != n.spec.bastion.(cloudInitRef := None) {
        errs := errs + [BastionChanged];
      }
    }
  }

  /** The fields that never change. */
  method ValidateIdentity(o: ClusterSpec, n: ClusterSpec) returns (errs: seq<ClusterError>)
    ensures ProjectChanged in errs <==> o.projectID != n.projectID
    ensures RegionChanged in errs <==> o.region != n.region
    ensures NetworkChanged in errs <==> o.networkID != n.networkID
    ensures CredentialsChanged in errs <==> o.credentials != n.credentials
    ensures forall x :: x in errs ==> x in {ProjectChanged, RegionChanged, NetworkChanged, CredentialsChanged}
    ensures errs == [] <==>
            o.projectID == n.projectID && o.region == n.region && o.networkID == n.networkID &&
              o.credentials == n.credentials
  {
    errs := [];
    if o.projectID != n.projectID { errs := errs + [ProjectChanged]; }
    if o.region != n.region { errs := errs + [RegionChanged]; }
    if o.networkID != n.networkID { errs := errs + [NetworkChanged]; }
    if o.credentials != n.credentials { errs := errs + [CredentialsChanged]; }
  }

  ghost predicate ClusterHistory(h: seq<ClusterObject>)
  {
    forall i :: 0 <= i < |h| - 1 ==>
      h[i + 1].spec == h[i].spec ||
      (ClusterUpdateAllowed(h[i], h[i + 1]) && h[i + 1].loadBalancerID == h[i].loadBalancerID &&
       h[i + 1].bastionServerID == h[i].bastionServerID)
  }

  /** Over any history: identity, network and credentials never move; the load
      balancer switch is frozen while an ID is recorded; the bastion is frozen
      while a server is recorded and it stays enabled. */
  lemma {:induction false} ClusterHistoryFrozen(h: seq<ClusterObject>, i: nat, j: nat)
    requires ClusterHistory(h) && i <= j < |h|
    ensures h[j].spec.projectID == h[i].spec.projectID && h[j].spec.region == h[i].spec.region
    ensures h[j].spec.networkID == h[i].spec.networkID && h[j].spec.credentials == h[i].spec.credentials
    ensures (forall k :: i <= k < j ==> h[k].loadBalancerID != "") ==>
            h[j].spec.loadBalancerEnabled == h[i].spec.loadBalancerEnabled
    ensures (forall k :: i <= k < j ==> h[k].bastionServerID != "") &&
            (forall k :: i <= k <= j ==> h[k].spec.bastion.enabled) ==>
              && h[j].spec.bastion.imageID == h[i].spec.bastion.imageID
              && h[j].spec.bastion.machineType == h[i].spec.bastion.machineType
              && h[j].spec.bastion.sshKeyName == h[i].spec.bastion.sshKeyName
              && h[j].spec.bastion.allowedCIDRs == h[i].spec.bastion.allowedCIDRs
              && h[j].spec.bastion.rootVolume == h[i].spec.bastion.rootVolume
    decreases j
  {
    if i < j {
      ClusterHistoryFrozen(h, i, j - 1);
      assert h[j - 1 + 1].spec == h[j - 1].spec || ClusterUpdateAllowed(h[j - 1], h[j - 1 + 1]);
    }
  }

  /** Staying enabled is needed: disabling and enabling again, two admitted updates
      with the same server recorded throughout, replaces any bastion field. */
  lemma BastionFreezeBypassed(o: ClusterObject, wanted: BastionSpec)
    requires o.bastionServerID != "" && o.spec.bastion.enabled && wanted.enabled
    ensures exists off: ClusterObject, on: ClusterObject ::
              ClusterHistory([o, off, on]) && on.spec.bastion == wanted && on.bastionServerID == o.bastionServerID
  {
    var off := o.(spec := o.spec.(bastion := o.spec.bastion.(enabled := false)));
    var on := o.(spec := o.spec.(bastion := wanted));
    assert ClusterHistory([o, off, on]);
  }
}
