/** The records the tool reads from the remote inventory service, the configuration it
    loads, and the enriched `Subnet` record it writes. Only the fields the enrichment loop
    reads are kept; each is always present except the VLAN name, which the loop tests. */
module Inventory {
  import opened Wrappers

  /** One member-address record of a subnet. The flags are fetched but never consulted:
      network, gateway and broadcast addresses are listed like any other. */
  datatype IpAddress = IpAddress(ipAddress: string, isNetwork: bool, isBroadcast: bool, isGateway: bool)

  /** A subnet as the inventory service returns it. `ipAddressCount` is only used as a
      capacity hint for the address list. */
  datatype RawSubnet = RawSubnet(
    cidr: int,
    gateway: string,
    netmask: string,
    networkIdentifier: string,
    subnetType: string,
    ipAddressCount: nat,
    ipAddresses: seq<IpAddress>)

  /** A VLAN as the inventory service returns it; `name` may be unset. */
  datatype NetworkVlan = NetworkVlan(
    name: Option<string>,
    vlanNumber: int,
    primaryRouterHostname: string,
    subnets: seq<RawSubnet>)

  /** One account of the credential file, with the outcome of fetching its VLANs: the list
      in the order the service returned it, or the error message of a failed fetch. */
  datatype Account = Account(username: string, apiToken: string, fetched: Result<seq<NetworkVlan>, string>)

  /** The vCenter association file: username -> router hostname -> vCenters. */
  type VCenterMap = map<string, map<string, seq<string>>>

  /** The enriched record written to the output, one per (router, VLAN number). */
  datatype Subnet = Subnet(
    cidr: int,
    dnsServer: string,
    machineNetworkCidr: string,
    gateway: string,
    mask: string,
    network: string,
    ipAddresses: seq<string>,
    virtualCenter: string,
    ipv6Prefix: string,
    startIpv6Address: string,
    stopIpv6Address: string,
    linkLocalIpv6: string,
    cidrIpv6: int,
    gatewayIpv6: string)

  /** The output: router hostname -> VLAN number -> enriched subnet. */
  type ResultMap = map<string, map<int, Subnet>>

  /** The IPv6 library the tool calls, as functions of the text handed to `Net6FromStr`:
      `text` is the network's `String()`, `maskSize` the first result of `Mask().Size()`,
      and `enumerate(t, k)` the text of the first address of `Enumerate(1, k)`. */
  datatype Net6Library = Net6Library(
    text: string -> string,
    maskSize: string -> int,
    enumerate: (string, int) -> string)

  /** The ways a run stops without writing any output. */
  datatype RunError =
    | FetchFailed(username: string, message: string)
    | IntegerDivideByZero(username: string, router: string)
}
