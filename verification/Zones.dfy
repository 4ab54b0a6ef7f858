/** Availability zones: what a cluster publishes and where a machine lands
    (failureDomainsFromZones, validateMachineAvailabilityZone, AvailabilityZone). */
module Zones {
  import opened Ordering

  /** Zone names of status.failureDomains; every entry carries the cluster's region. */
  type Published = seq<string>

  predicate Metro(zone: string)
  {
    |zone| >= 2 && zone[|zone| - 2] == '-' && zone[|zone| - 1] == 'm'
  }

  function RegionZones(region: string): Published
  {
    [region + "-1", region + "-2", region + "-3"]
  }

  function WithoutMetro(zones: seq<string>): seq<string>
  {
    if zones == [] then []
    else WithoutMetro(zones[..|zones| - 1]) + (if Metro(zones[|zones| - 1]) then [] else [zones[|zones| - 1]])
  }

  lemma WithoutMetroKeepsTheRest(zones: seq<string>)
    ensures forall z :: z in WithoutMetro(zones) <==> z in zones && !Metro(z)
  {
    if zones != [] {
      WithoutMetroKeepsTheRest(zones[..|zones| - 1]);
      assert zones == zones[..|zones| - 1] + [zones[|zones| - 1]];
    }
  }

  predicate ByText(a: string, b: string) { Leq(a, b) }

  lemma ByTextIsOrder(s: seq<string>)
    ensures TotalPreorder(ByText) && Distinguishes(ByText, s)
  {
    forall a: string, b: string ensures ByText(a, b) || ByText(b, a) { LeqTotal(a, b); }
    forall a: string, b: string, c: string | ByText(a, b) && ByText(b, c) ensures ByText(a, c) {
      LeqTransitive(a, b, c);
    }
    forall a, b | a in s && b in s && ByText(a, b) && ByText(b, a) ensures a == b { LeqAntisymmetric(a, b); }
  }

  lemma SortKeepsMembers(s: seq<string>)
    ensures forall z :: z in Sort(s, ByText) <==> z in s
  {
    ByTextIsOrder(s);
    SortCorrect(s, ByText);
    forall z ensures z in Sort(s, ByText) <==> z in s {
      assert z in Sort(s, ByText) <==> z in multiset(Sort(s, ByText));
      assert z in s <==> z in multiset(s);
    }
  }

  function Publish(region: string, zones: seq<string>): Published
  {
    var kept := WithoutMetro(zones);
    if kept == [] then RegionZones(region) else Sort(kept, ByText)
  }

  method FailureDomainsFromZones(region: string, zones: seq<string>) returns (published: Published)
    ensures published == Publish(region, zones)
  {
    published := [];
    for i := 0 to |zones|
      invariant published == WithoutMetro(zones[..i])
    {
      assert zones[..i + 1][..i] == zones[..i];
      if Metro(zones[i]) { continue; }
      published := published + [zones[i]];
    }
    assert zones[..|zones|] == zones;
    if |published| == 0 { return RegionZones(region); }
    ByTextIsOrder(published);
    published := SortFunc(published, ByText);
  }

  predicate EndsInM(zone: string) { |zone| >= 2 && zone[|zone| - 2..] == "-m" }

  /** Exactly the listed zones that do not end in "-m", in order; the region's own three
      if and only if there are none. */
  lemma PublishedZones(region: string, zones: seq<string>)
    ensures Publish(region, zones) != []
    ensures forall z :: z in Publish(region, zones) ==> !EndsInM(z)
    ensures (exists z :: z in zones && !EndsInM(z)) ==>
              && (forall z :: z in Publish(region, zones) <==> z in zones && !EndsInM(z))
              && Sorted(Publish(region, zones), ByText)
    ensures (forall z :: z in zones ==> EndsInM(z)) ==>
              Publish(region, zones) == [region + "-1", region + "-2", region + "-3"]
  {
    var kept := WithoutMetro(zones);
    WithoutMetroKeepsTheRest(zones);
    SortKeepsMembers(kept);
    ByTextIsOrder(kept);
    SortCorrect(kept, ByText);
    MetroEndsInM();
    if kept != [] { assert kept[0] in zones && !Metro(kept[0]); }
  }

  lemma MetroEndsInM()
    ensures forall z :: Metro(z) <==> EndsInM(z)
  {
    forall z ensures Metro(z) <==> EndsInM(z) {
      if |z| >= 2 { assert z[|z| - 2..] == [z[|z| - 2], z[|z| - 1]]; }
    }
  }

  /** validateMachineAvailabilityZone returns no error. */
  predicate Accepts(published: Published, zone: string, failureDomain: string)
  {
    published == [] ||
    ((|zone| == 0 || zone in published) && (|failureDomain| == 0 || failureDomain in published))
  }

  method ValidateMachineAvailabilityZone(published: Published, zone: string, failureDomain: string) returns (ok: bool)
    ensures ok == Accepts(published, zone, failureDomain)
  {
    if |published| == 0 { return true; }
    if |zone| > 0 {
      var known := KnownZone(published, zone);
      if !known { return false; }
    }
    if |failureDomain| > 0 {
      var known := KnownZone(published, failureDomain);
      if !known { return false; }
    }
    return true;
  }

  method KnownZone(published: Published, zone: string) returns (known: bool)
    ensures known <==> zone in published
  {
    for i := 0 to |published|
      invariant zone !in published[..i]
    {
      if published[i] == zone { return true; }
    }
    return false;
  }

  /** Machine.spec.failureDomain first, then spec.availabilityZone, then the first published zone. */
  function Place(published: Published, zone: string, failureDomain: string, region: string): string
  {
    if |failureDomain| > 0 then failureDomain
    else if |zone| > 0 then zone
    else if published != [] then Sort(published, ByText)[0]
    else if |region| > 0 then region + "-1"
    else ""
  }

  method AvailabilityZone(published: Published, zone: string, failureDomain: string, region: string) returns (r: string)
    ensures r == Place(published, zone, failureDomain, region)
  {
    if |failureDomain| > 0 { return failureDomain; }
    if |zone| > 0 { return zone; }
    if |published| > 0 {
      var zones: seq<string> := [];
      for i := 0 to |published|
        invariant zones == published[..i]
      {
        zones := zones + [published[i]];
      }
      assert zones == published;
      ByTextIsOrder(zones);
      zones := SortFunc(zones, ByText);
      return zones[0];
    }
    if |region| > 0 { return region + "-1"; }
    return "";
  }

  /** Without published zones nothing is checked, and the choices come in the same order. */
  lemma PlacementUnpublished(zone: string, failureDomain: string, region: string)
    ensures Accepts([], zone, failureDomain)
    ensures Place([], zone, failureDomain, region) ==
            if failureDomain != "" then failureDomain else if zone != "" then zone
            else if region != "" then region + "-1" else ""
  {
  }

  lemma SortedHeadIsLeast(published: Published, zone: string)
    requires zone in published
    ensures Leq(Sort(published, ByText)[0], zone) && Sort(published, ByText)[0] in published
  {
    var sorted := Sort(published, ByText);
    ByTextIsOrder(published);
    SortCorrect(published, ByText);
    SortKeepsMembers(published);
    var i :| 0 <= i < |sorted| && sorted[i] == zone;
    LeqTotal(zone, zone);
    if i > 0 { assert ByText(sorted[0], sorted[i]); }
    assert sorted[0] in sorted;
  }

  /** A machine that passes validation against what its cluster published lands in
      a published zone, never in a metro zone, whatever zones the cloud listed and
      whatever the user chose; with no choice it lands in the least one. */
  lemma {:induction false} PlacementIsPublished(region: string, zones: seq<string>, zone: string, failureDomain: string)
    requires Accepts(Publish(region, zones), zone, failureDomain)
    ensures var published := Publish(region, zones);
            var placed := Place(published, zone, failureDomain, region);
            && placed in published && !EndsInM(placed)
            && (|failureDomain| > 0 ==> placed == failureDomain)
            && (|failureDomain| == 0 && |zone| > 0 ==> placed == zone)
            && (|failureDomain| == 0 && |zone| == 0 ==> forall z :: z in published ==> Leq(placed, z))
  {
    var published := Publish(region, zones);
    PublishedZones(region, zones);
    forall z | z in published ensures Leq(Sort(published, ByText)[0], z) { SortedHeadIsLeast(published, z); }
    SortedHeadIsLeast(published, published[0]);
  }
}
