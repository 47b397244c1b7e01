/** Concrete runs: the name filter on sample names, and one account with one VLAN and one
    subnet enriched end to end. */
module Scenarios {
  import opened Wrappers
  import opened Text
  import opened Inventory
  import opened Enrichment
  import opened GenerateSubnets
  import opened RunProperties

  /** The filter keeps "ci-east-1" and drops a VLAN without a name. */
  lemma FilterExamples(router: string, vlanNumber: int, subnets: seq<RawSubnet>)
    ensures Selected(NetworkVlan(Some("ci-east-1"), vlanNumber, router, subnets))
    ensures !Selected(NetworkVlan(None, vlanNumber, router, subnets))
  {
    assert OccursAt("ci-east-1", "ci", 0);
  }

  /** The filter drops "prod-east", and it is case-sensitive: "CI-east-1" is dropped too. */
  lemma FilterDrops(router: string, vlanNumber: int, subnets: seq<RawSubnet>)
    ensures !Selected(NetworkVlan(Some("prod-east"), vlanNumber, router, subnets))
    ensures !Selected(NetworkVlan(Some("CI-east-1"), vlanNumber, router, subnets))
  {
    LeadingCharAbsent("prod-east", "ci");
    LeadingCharAbsent("CI-east-1", "ci");
  }

  /** A text without the first character of `sub` does not contain `sub`. */
  lemma LeadingCharAbsent(s: string, sub: string)
    requires |sub| > 0 && forall k :: 0 <= k < |s| ==> s[k] != sub[0]
    ensures !Contains(s, sub)
  {
  }

  /** Subnet 10.0.0.0/24 with gateway 10.0.0.1 and the one address 10.0.0.2. */
  function SampleSubnet(): RawSubnet
  {
    RawSubnet(24, "10.0.0.1", "255.255.255.0", "10.0.0.0", "PRIMARY", 1, [IpAddress("10.0.0.2", false, false, false)])
  }

  /** VLAN 42 named "ci-test" on "router-a" holding SampleSubnet. */
  function SampleVlan(): NetworkVlan
  {
    NetworkVlan(Some("ci-test"), 42, "router-a", [SampleSubnet()])
  }

  /** Owner "owner" has vCenters "vc1" and "vc2" behind "router-a". */
  function SampleVCenters(): VCenterMap
  {
    map["owner" := map["router-a" := ["vc1", "vc2"]]]
  }

  /** The record the tool writes for SampleSubnet with vCenter "vc1". */
  function SampleRecord(lib: Net6Library): Subnet
  {
    var net := "fd65:a1a8:60ad:42::1/64";
    Subnet(
      cidr := 24,
      dnsServer := "10.0.0.1",
      machineNetworkCidr := "10.0.0.0/24",
      gateway := "10.0.0.1",
      mask := "255.255.255.0",
      network := "10.0.0.0",
      ipAddresses := ["10.0.0.2"],
      virtualCenter := "vc1",
      ipv6Prefix := lib.text(net),
      startIpv6Address := lib.enumerate(net, 4),
      stopIpv6Address := lib.enumerate(net, 100),
      linkLocalIpv6 := CidrNotation(lib.enumerate("fe80::/64", 42), lib.maskSize("fe80::/64")),
      cidrIpv6 := lib.maskSize(net),
      gatewayIpv6 := lib.enumerate(net, 2))
  }

  lemma SampleEntry(lib: Net6Library)
    ensures SubnetEntry(SampleVlan(), SampleSubnet(), "vc1", lib) == SampleRecord(lib)
  {
    assert DecimalText(24) == "24";
    assert CidrNotation("10.0.0.0", 24) == "10.0.0.0/24";
    assert DecimalText(42) == "42";
    assert Ipv6NetText(42) == "fd65:a1a8:60ad:42::1/64";
    assert AddressStrings(SampleSubnet().ipAddresses) == ["10.0.0.2"];
  }

  /** One owner with the single VLAN SampleVlan at raw position 0: the VLAN gets "vc1", the
      first of its two vCenters, and the result holds exactly that one record. */
  lemma EndToEnd(lib: Net6Library)
    ensures Generate([Account("owner", "token", Success([SampleVlan()]))], SampleVCenters(), lib)
            == Success(map["router-a" := map[42 := SampleRecord(lib)]])
  {
    var vlan := SampleVlan();
    assert Selected(vlan) by {
      assert OccursAt("ci-test", "ci", 0);
    }
    assert VirtualCenterFor(SampleVCenters(), "owner", "router-a", 0) == Success("vc1");
    SampleEntry(lib);
    VlanStepEffect(map[], "owner", SampleVCenters(), 0, vlan, lib);
    assert VlanStep(map[], "owner", SampleVCenters(), 0, vlan, lib)
           == Success(map["router-a" := map[42 := SampleRecord(lib)]]);
  }
}
