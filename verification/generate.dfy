/** The enrichment loop of the generate-subnets tool: for every account, every VLAN of the
    fetched list (with its raw position), and every subnet of a VLAN that passes the name
    filter, build a `Subnet` record and store it under (router hostname, VLAN number).

    The functions give the meaning of each level of the loop as a fold; each method runs
    the loop as the tool does and is proved to compute that fold. */
module GenerateSubnets {
  import opened Wrappers
  import opened Text
  import opened Inventory
  import opened Enrichment

  /** The record stored for subnet `raw` of `vlan` when the VLAN's vCenter is `vc`. */
  function SubnetEntry(vlan: NetworkVlan, raw: RawSubnet, vc: string, lib: Net6Library): Subnet
  {
    BuildSubnet(raw, AddressStrings(raw.ipAddresses), vlan.vlanNumber, vc, lib)
  }

  /** The records of all subnets of `vlan`, in subnet order. */
  function SubnetEntries(vlan: NetworkVlan, vc: string, lib: Net6Library): seq<Subnet>
  {
    seq(|vlan.subnets|, k requires 0 <= k < |vlan.subnets| => SubnetEntry(vlan, vlan.subnets[k], vc, lib))
  }

  /** Storing `entries` from index `k` on, in order, all at (router, VLAN number). */
  function InsertAllFrom(m: ResultMap, router: string, vlanNumber: int, entries: seq<Subnet>, k: nat): ResultMap
    requires k <= |entries|
    decreases |entries| - k
  {
    if k == |entries| then m
    else InsertAllFrom(Insert(m, router, vlanNumber, entries[k]), router, vlanNumber, entries, k + 1)
  }

  /** What the VLAN at raw position `position` of `username`'s list does to the result. */
  function VlanStep(m: ResultMap, username: string, vcenters: VCenterMap, position: nat, vlan: NetworkVlan, lib: Net6Library): Result<ResultMap, RunError>
  {
    if !Contributes(vlan) then Success(m)
    else
      match VirtualCenterFor(vcenters, username, vlan.primaryRouterHostname, position)
      case Failure(e) => Failure(e)
      case Success(vc) =>
        Success(InsertAllFrom(m, vlan.primaryRouterHostname, vlan.vlanNumber, SubnetEntries(vlan, vc, lib), 0))
  }

  /** The VLANs of one account from raw position `i` on; the first failure stops the run. */
  function ProcessVlansFrom(m: ResultMap, username: string, vcenters: VCenterMap, vlans: seq<NetworkVlan>, lib: Net6Library, i: nat): Result<ResultMap, RunError>
    requires i <= |vlans|
    decreases |vlans| - i
  {
    if i == |vlans| then Success(m)
    else
      match VlanStep(m, username, vcenters, i, vlans[i], lib)
      case Failure(e) => Failure(e)
      case Success(m') => ProcessVlansFrom(m', username, vcenters, vlans, lib, i + 1)
  }

  /** The accounts from index `a` on; a failed fetch or a failure in a VLAN stops the run. */
  function RunAccountsFrom(m: ResultMap, accounts: seq<Account>, vcenters: VCenterMap, lib: Net6Library, a: nat): Result<ResultMap, RunError>
    requires a <= |accounts|
    decreases |accounts| - a
  {
    if a == |accounts| then Success(m)
    else
      var c := accounts[a];
      match c.fetched
      case Failure(message) => Failure(FetchFailed(c.username, message))
      case Success(vlans) =>
        match ProcessVlansFrom(m, c.username, vcenters, vlans, lib, 0)
        case Failure(e) => Failure(e)
        case Success(m') => RunAccountsFrom(m', accounts, vcenters, lib, a + 1)
  }

  /** The whole run, starting from the empty result map. */
  function Generate(accounts: seq<Account>, vcenters: VCenterMap, lib: Net6Library): Result<ResultMap, RunError>
  {
    RunAccountsFrom(map[], accounts, vcenters, lib, 0)
  }

  /** The two steps of a store (create the inner map if the router is new, then assign
      into it) amount to one Insert. */
  lemma StoreIsInsert(m: ResultMap, router: string, vlanNumber: int, s: Subnet)
    ensures var created := if router !in m then m[router := map[]] else m;
            created[router := created[router][vlanNumber := s]] == Insert(m, router, vlanNumber, s)
  {
  }

  /** Flattens the address records of a subnet, one string per record, in order. */
  method CollectAddresses(records: seq<IpAddress>) returns (addresses: seq<string>)
    ensures addresses == AddressStrings(records)
  {
    addresses := [];
    for k := 0 to |records|
      invariant addresses == AddressStrings(records[..k])
    {
      assert records[..k + 1][..k] == records[..k];
      addresses := addresses + [records[k].ipAddress];
    }
    assert records[..|records|] == records;
  }

  /** The body of the subnet loop: the address list, the router's inner map (created if
      the router is new), the vCenter of the VLAN's raw position, and the store. */
  method EnrichSubnet(m: ResultMap, username: string, vcenters: VCenterMap, position: nat, vlan: NetworkVlan, subnet: RawSubnet, lib: Net6Library)
    returns (out: Result<ResultMap, RunError>)
    ensures VirtualCenterFor(vcenters, username, vlan.primaryRouterHostname, position).Failure? ==>
              out == Failure(IntegerDivideByZero(username, vlan.primaryRouterHostname))
    ensures VirtualCenterFor(vcenters, username, vlan.primaryRouterHostname, position).Success? ==>
              out == Success(Insert(m, vlan.primaryRouterHostname, vlan.vlanNumber,
                                    SubnetEntry(vlan, subnet, VirtualCenterFor(vcenters, username, vlan.primaryRouterHostname, position).value, lib)))
  {
    var router := vlan.primaryRouterHostname;
    var addresses := CollectAddresses(subnet.ipAddresses);
    var result := m;
    if router !in result {
      result := result[router := map[]];
    }
    var virtualCenter := VirtualCenterFor(vcenters, username, router, position);
    if virtualCenter.Failure? {
      return Failure(virtualCenter.error);
    }
    var entry := BuildSubnet(subnet, addresses, vlan.vlanNumber, virtualCenter.value, lib);
    StoreIsInsert(m, router, vlan.vlanNumber, entry);
    result := result[router := result[router][vlan.vlanNumber := entry]];
    return Success(result);
  }

  /** The body of the VLAN loop for the VLAN at raw position `position`: the name filter,
      then the subnet loop. */
  method ProcessVlan(m: ResultMap, username: string, vcenters: VCenterMap, position: nat, vlan: NetworkVlan, lib: Net6Library)
    returns (out: Result<ResultMap, RunError>)
    ensures out == VlanStep(m, username, vcenters, position, vlan, lib)
  {
    if vlan.name.None? || !Contains(vlan.name.value, VlanNameMarker) {
      return Success(m);
    }
    var router := vlan.primaryRouterHostname;
    var result := m;
    ghost var pick := VirtualCenterFor(vcenters, username, router, position);
    ghost var entries := if pick.Success? then SubnetEntries(vlan, pick.value, lib) else [];
    for k := 0 to |vlan.subnets|
      invariant k == 0 ==> result == m
      invariant k > 0 ==> pick.Success? && |entries| == |vlan.subnets|
      invariant k > 0 ==> InsertAllFrom(result, router, vlan.vlanNumber, entries, k) == InsertAllFrom(m, router, vlan.vlanNumber, entries, 0)
    {
      var step := EnrichSubnet(result, username, vcenters, position, vlan, vlan.subnets[k], lib);
      if step.Failure? {
        return step;
      }
      assert step.value == Insert(result, router, vlan.vlanNumber, entries[k]);
      result := step.value;
    }
    return Success(result);
  }

  /** The VLAN loop of one account, over the fetched list with each VLAN's raw position. */
  method ProcessAccount(m: ResultMap, username: string, vlans: seq<NetworkVlan>, vcenters: VCenterMap, lib: Net6Library)
    returns (out: Result<ResultMap, RunError>)
    ensures out == ProcessVlansFrom(m, username, vcenters, vlans, lib, 0)
  {
    var result := m;
    for i := 0 to |vlans|
      invariant ProcessVlansFrom(result, username, vcenters, vlans, lib, i) == ProcessVlansFrom(m, username, vcenters, vlans, lib, 0)
    {
      var step := ProcessVlan(result, username, vcenters, i, vlans[i], lib);
      if step.Failure? {
        return step;
      }
      result := step.value;
    }
    return Success(result);
  }

  /** The account loop: fetch each account's VLANs and enrich them into one result map. */
  method GenerateSubnets(accounts: seq<Account>, vcenters: VCenterMap, lib: Net6Library)
    returns (out: Result<ResultMap, RunError>)
    ensures out == Generate(accounts, vcenters, lib)
  {
    var subnetVlanMap: ResultMap := map[];
    for a := 0 to |accounts|
      invariant RunAccountsFrom(subnetVlanMap, accounts, vcenters, lib, a) == Generate(accounts, vcenters, lib)
    {
      var c := accounts[a];
      if c.fetched.Failure? {
        return Failure(FetchFailed(c.username, c.fetched.error));
      }
      var step := ProcessAccount(subnetVlanMap, c.username, c.fetched.value, vcenters, lib);
      if step.Failure? {
        return step;
      }
      subnetVlanMap := step.value;
    }
    return Success(subnetVlanMap);
  }
}
