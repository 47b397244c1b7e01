/** The per-subnet pieces of the enrichment loop: the VLAN name filter, the IPv6 network
    text, the round-robin vCenter pick, the `Subnet` record builder and the insertion into
    the nested result map. */
module Enrichment {
  import opened Wrappers
  import opened Text
  import opened Inventory

  /** Only VLANs whose name contains this marker are enriched. */
  const VlanNameMarker: string := "ci"

  /** The IPv6 network of VLAN n is parsed from Ipv6NetPrefix + %d(n) + Ipv6NetSuffix. */
  const Ipv6NetPrefix: string := "fd65:a1a8:60ad:"
  const Ipv6NetSuffix: string := "::1/64"
  const LinkLocalNet: string := "fe80::/64"

  /** Offsets passed to `Enumerate` for the gateway, start and stop addresses. */
  const GatewayIpv6Offset: int := 2
  const StartIpv6Offset: int := 4
  const StopIpv6Offset: int := 100

  /** The name filter: the name is set and contains the marker. */
  predicate Selected(vlan: NetworkVlan)
  {
    vlan.name.Some? && Contains(vlan.name.value, VlanNameMarker)
  }

  /** A VLAN writes into the result exactly when it passes the filter and has a subnet. */
  predicate Contributes(vlan: NetworkVlan)
  {
    Selected(vlan) && |vlan.subnets| > 0
  }

  /** The filter as a substring test: a set name with "ci" somewhere in it, case-sensitive. */
  lemma SelectedMeaning(vlan: NetworkVlan)
    ensures Selected(vlan) <==> vlan.name.Some? && exists i :: OccursAt(vlan.name.value, VlanNameMarker, i)
  {
  }

  /** The text handed to `Net6FromStr`: the VLAN number's decimal digits in the fourth hextet. */
  function Ipv6NetText(vlanNumber: int): string
  {
    Ipv6NetPrefix + DecimalText(vlanNumber) + Ipv6NetSuffix
  }

  /** Different VLAN numbers hand different texts to the IPv6 library. */
  lemma Ipv6NetTextInjective(a: int, b: int)
    requires Ipv6NetText(a) == Ipv6NetText(b)
    ensures a == b
  {
    var s, t := Ipv6NetText(a), Ipv6NetText(b);
    var p, q := |Ipv6NetPrefix|, |Ipv6NetSuffix|;
    assert s[p..|s| - q] == DecimalText(a);
    assert t[p..|t| - q] == DecimalText(b);
    DecimalTextInjective(a, b);
  }

  /** `fmt.Sprintf("%s/%d", network, prefixLength)`. */
  function CidrNotation(network: string, prefixLength: int): string
  {
    network + "/" + DecimalText(prefixLength)
  }

  /** Splits "network/length" at its first slash. */
  function ParseCidrNotation(s: string): Option<(string, int)>
  {
    match IndexOf(s, '/')
    case None => None
    case Some(k) =>
      match ParseDecimal(s[k + 1..])
      case None => None
      case Some(n) => Some((s[..k], n))
  }

  /** A slash-free network and its prefix length are recovered from their CIDR text. */
  lemma CidrNotationRoundTrip(network: string, prefixLength: int)
    ensures '/' !in network ==> ParseCidrNotation(CidrNotation(network, prefixLength)) == Some((network, prefixLength))
  {
    if '/' !in network {
      var s := CidrNotation(network, prefixLength);
      var k := |network|;
      assert s[k] == '/';
      assert s[..k] == network;
      assert IndexOf(s, '/') == Some(k);
      assert s[k + 1..] == DecimalText(prefixLength);
      DecimalRoundTrip(prefixLength);
    }
  }

  /** A username/router pair whose vCenter list is present but empty: `i % 0` panics. */
  predicate Unassignable(vcenters: VCenterMap, username: string, router: string)
  {
    username in vcenters && router in vcenters[username] && |vcenters[username][router]| == 0
  }

  /** The vCenter for the VLAN at raw position `position` of `username`'s list, routed by
      `router`: round-robin over the configured list, "" when no list is configured. */
  function VirtualCenterFor(vcenters: VCenterMap, username: string, router: string, position: nat): (r: Result<string, RunError>)
    ensures r.Failure? <==> Unassignable(vcenters, username, router)
    ensures r.Failure? ==> r.error == IntegerDivideByZero(username, router)
    ensures username !in vcenters || router !in vcenters[username] ==> r == Success("")
    ensures r.Success? && username in vcenters && router in vcenters[username] ==>
              r.value in vcenters[username][router]
  {
    if username in vcenters && router in vcenters[username] then
      var list := vcenters[username][router];
      if |list| == 0 then Failure(IntegerDivideByZero(username, router))
      else Success(list[position % |list|])
    else
      Success("")
  }

  /** Round-robin: position p gets entry p mod n of the configured list of n vCenters, so
      positions n apart get the same vCenter and the first n positions cover the list. */
  lemma RoundRobin(vcenters: VCenterMap, username: string, router: string, p: nat)
    requires username in vcenters && router in vcenters[username]
    requires |vcenters[username][router]| > 0
    ensures var list := vcenters[username][router];
            && VirtualCenterFor(vcenters, username, router, p) == Success(list[p % |list|])
            && VirtualCenterFor(vcenters, username, router, p + |list|) == VirtualCenterFor(vcenters, username, router, p)
            && (p < |list| ==> VirtualCenterFor(vcenters, username, router, p) == Success(list[p]))
  {
    ModuloShift(p, |vcenters[username][router]|);
  }

  lemma ModuloShift(p: nat, n: nat)
    requires n > 0
    ensures (p + n) % n == p % n
    ensures p < n ==> p % n == p
  {
    var q, r := p / n, p % n;
    assert p + n == (q + 1) * n + r;
    ModuloUnique(p + n, n, q + 1, r);
  }

  lemma ModuloUnique(x: int, n: int, q: int, r: int)
    requires n > 0 && 0 <= r < n && x == q * n + r
    ensures x % n == r
  {
    var q', r' := x / n, x % n;
    assert (q - q') * n == r' - r;
    ProductSign(q - q', n);
  }

  lemma ProductSign(d: int, n: int)
    requires n > 0
    ensures d >= 1 ==> d * n >= n
    ensures d <= -1 ==> d * n <= -n
  {
    assert d * n - n == (d - 1) * n;
    assert d * n + n == (d + 1) * n;
  }

  /** The flattened address list, in record order. */
  function AddressStrings(records: seq<IpAddress>): (r: seq<string>)
    ensures |r| == |records|
    ensures forall k :: 0 <= k < |records| ==> r[k] == records[k].ipAddress
  {
    if records == [] then []
    else AddressStrings(records[..|records| - 1]) + [records[|records| - 1].ipAddress]
  }

  /** The enriched record for one subnet of VLAN `vlanNumber`, given its flattened addresses
      and its vCenter. */
  function BuildSubnet(raw: RawSubnet, addresses: seq<string>, vlanNumber: int, virtualCenter: string, lib: Net6Library): (r: Subnet)
    ensures r.cidr == raw.cidr && r.gateway == raw.gateway && r.mask == raw.netmask
    ensures r.network == raw.networkIdentifier
    ensures r.dnsServer == r.gateway
    ensures '/' !in raw.networkIdentifier ==>
              ParseCidrNotation(r.machineNetworkCidr) == Some((raw.networkIdentifier, raw.cidr))
    ensures r.ipAddresses == addresses && r.virtualCenter == virtualCenter
    ensures r.ipv6Prefix == lib.text(Ipv6NetText(vlanNumber)) && r.cidrIpv6 == lib.maskSize(Ipv6NetText(vlanNumber))
    ensures r.gatewayIpv6 == lib.enumerate(Ipv6NetText(vlanNumber), GatewayIpv6Offset)
    ensures r.startIpv6Address == lib.enumerate(Ipv6NetText(vlanNumber), StartIpv6Offset)
    ensures r.stopIpv6Address == lib.enumerate(Ipv6NetText(vlanNumber), StopIpv6Offset)
    ensures r.linkLocalIpv6 == CidrNotation(lib.enumerate(LinkLocalNet, vlanNumber), lib.maskSize(LinkLocalNet))
  {
    CidrNotationRoundTrip(raw.networkIdentifier, raw.cidr);
    var net := Ipv6NetText(vlanNumber);
    Subnet(
      cidr := raw.cidr,
      dnsServer := raw.gateway,
      machineNetworkCidr := CidrNotation(raw.networkIdentifier, raw.cidr),
      gateway := raw.gateway,
      mask := raw.netmask,
      network := raw.networkIdentifier,
      ipAddresses := addresses,
      virtualCenter := virtualCenter,
      ipv6Prefix := lib.text(net),
      startIpv6Address := lib.enumerate(net, StartIpv6Offset),
      stopIpv6Address := lib.enumerate(net, StopIpv6Offset),
      linkLocalIpv6 := CidrNotation(lib.enumerate(LinkLocalNet, vlanNumber), lib.maskSize(LinkLocalNet)),
      cidrIpv6 := lib.maskSize(net),
      gatewayIpv6 := lib.enumerate(net, GatewayIpv6Offset))
  }

  /** The IPv6 fields depend on nothing but the VLAN number: every subnet of a VLAN gets
      the same ones, whatever its IPv4 data and vCenter. */
  lemma Ipv6FieldsPerVlan(raw1: RawSubnet, a1: seq<string>, vc1: string, raw2: RawSubnet, a2: seq<string>, vc2: string, vlanNumber: int, lib: Net6Library)
    ensures var s1, s2 := BuildSubnet(raw1, a1, vlanNumber, vc1, lib), BuildSubnet(raw2, a2, vlanNumber, vc2, lib);
            && s1.ipv6Prefix == s2.ipv6Prefix && s1.gatewayIpv6 == s2.gatewayIpv6
            && s1.startIpv6Address == s2.startIpv6Address && s1.stopIpv6Address == s2.stopIpv6Address
            && s1.linkLocalIpv6 == s2.linkLocalIpv6 && s1.cidrIpv6 == s2.cidrIpv6
  {
  }

  /** The entry stored at (router, VLAN number), if any. */
  function Lookup(m: ResultMap, router: string, vlanNumber: int): Option<Subnet>
  {
    if router in m && vlanNumber in m[router] then Some(m[router][vlanNumber]) else None
  }

  /** Stores `s` at (router, VLAN number), creating the router's inner map if it is absent. */
  function Insert(m: ResultMap, router: string, vlanNumber: int, s: Subnet): (r: ResultMap)
    ensures Lookup(r, router, vlanNumber) == Some(s)
    ensures forall rt, n :: rt != router || n != vlanNumber ==> Lookup(r, rt, n) == Lookup(m, rt, n)
    ensures r.Keys == m.Keys + {router}
  {
    var inner := if router in m then m[router] else map[];
    m[router := inner[vlanNumber := s]]
  }

  /** Last write wins: a second insertion at the same key replaces the first completely. */
  lemma InsertOverwrites(m: ResultMap, router: string, vlanNumber: int, s1: Subnet, s2: Subnet)
    ensures Insert(Insert(m, router, vlanNumber, s1), router, vlanNumber, s2) == Insert(m, router, vlanNumber, s2)
  {
    var inner := if router in m then m[router] else map[];
    assert inner[vlanNumber := s1][vlanNumber := s2] == inner[vlanNumber := s2];
  }
}
