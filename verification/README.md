# generate-subnets: the subnet-enrichment loop, modelled in Dafny

The `generate-subnets` tool builds a static inventory of the CI subnets of a fleet of
SoftLayer accounts. For every account it fetches the account's network VLANs. It keeps the
VLANs whose name contains `"ci"`. For each subnet of such a VLAN it builds a `Subnet`
record: the IPv4 fields, the flattened member addresses, a vCenter picked round-robin from
a configuration map, and IPv6 fields derived from the VLAN number. It stores the record
under router hostname and VLAN number in a nested map, which it then writes to
`subnets.json`.

This project models that loop (`main`, lines 114-189 of `tools/generate-subnets/main.go`)
and proves what it computes.

- `wrappers.dfy`: `Option` and `Result`.
- `text.dfy` (module `Text`): Go's `strings.Contains` and `fmt`'s `%d`, each with a partner.
  The partner of `Contains` is an occurrence predicate; the partner of `%d` is a decimal
  parser, with a proved round trip.
- `inventory.dfy` (module `Inventory`): the fetched records (`IpAddress`, `RawSubnet`,
  `NetworkVlan`, `Account`), the vCenter map, the output `Subnet` and the result map. It
  also holds the IPv6 library interface (`Net6Library`) and the fatal outcomes
  (`RunError`).
- `enrichment.dfy` (module `Enrichment`): the name filter, the IPv6 network text, the
  round-robin vCenter pick, the record builder, and insertion into the nested map.
- `generate.dfy` (module `GenerateSubnets`): the loop itself, as five methods. Four are
  the account loop, the VLAN loop (with the raw position `i`), the subnet loop, and the
  address-append loop; each is proved equal to a fold function that gives that level's
  meaning. The fifth, `EnrichSubnet`, is the body of the subnet loop and is proved equal
  to one `Insert` of the built record, or to the division-by-zero failure.
- `properties.dfy` (module `RunProperties`): what a run computes, stated in terms of the
  raw inputs:
  - which VLANs write;
  - which record survives at each (router, VLAN number): last write wins, between VLANs,
    between accounts, and among the subnets of one VLAN;
  - which router keys exist;
  - exactly when the run fails.
- `scenarios.dfy` (module `Scenarios`): the name filter on sample names, and one
  end-to-end run.

The input-side choices:

- The fetched VLAN lists are an input: each `Account` carries the outcome of its fetch.
- The vCenter association file is an input map.
- The IPv6 library is an input record of functions.

A run either produces the whole result map or stops with a `RunError`. There are two
causes:

- a failed fetch, which the tool handles with `log.Fatal`;
- the integer-division panic of `i % 0`, which happens when an account/router pair has a
  configured vCenter list that is empty.

In both cases nothing is written.

Details of the code the model keeps:

- The start IPv6 address is enumerated at offset 4, not at the gateway's offset 2.
- The stop address is at offset 100.
- The VLAN number is written into the IPv6 network text with `%d`, so its decimal digits
  stand in a hexadecimal hextet.
- An empty vCenter list fails only for a VLAN that passes the filter and has at least one
  subnet. The vCenter is picked inside the subnet loop, so a matching VLAN with no subnets
  never reaches `i % 0`.

## Model

| member | source | states |
|---|---|---|
| `Text.Contains` | tools/generate-subnets/main.go:127 | the name test holds exactly when the marker occurs at some position of the name (case-sensitive) |
| `Text.DecimalText` | tools/generate-subnets/main.go:168 | `%d` output is non-empty, starts with '-' exactly for negative numbers, and is digits otherwise |
| `Text.DecimalRoundTrip` | tools/generate-subnets/main.go:168 | parsing the `%d` text of a number gives the number back |
| `Text.DecimalTextInjective` | tools/generate-subnets/main.go:130 | distinct numbers have distinct `%d` texts |
| `Enrichment.SelectedMeaning` | tools/generate-subnets/main.go:126-127 | the filter `Selected` keeps a VLAN exactly when its name is set and contains "ci" |
| `Enrichment.Ipv6NetTextInjective` | tools/generate-subnets/main.go:130 | `Ipv6NetText`, the network text handed to the IPv6 library, differs for distinct VLAN numbers |
| `Enrichment.CidrNotationRoundTrip` | tools/generate-subnets/main.go:168 | a slash-free network and its prefix length are recovered from `CidrNotation`, the `network/cidr` text |
| `Enrichment.VirtualCenterFor` | tools/generate-subnets/main.go:154-163 | "" when the username or the router is not configured; fails with a division by zero exactly when the configured list is empty; otherwise one of the configured vCenters |
| `Enrichment.RoundRobin` | tools/generate-subnets/main.go:156-161 | position p gets entry p mod n of the n configured vCenters; positions n apart get the same vCenter; the first n positions get the list in order |
| `Enrichment.AddressStrings` | tools/generate-subnets/main.go:137-140 | one address string per record, in record order, whatever the record's flags |
| `Enrichment.BuildSubnet` | tools/generate-subnets/main.go:165-184 | IPv4 fields copied; DNS server is the gateway; `machineNetworkCidr` parses back to (network, cidr); IPv6 fields come from the VLAN's network text at offsets 2, 4 and 100, and the link-local one from `fe80::/64` at the VLAN number |
| `Enrichment.Ipv6FieldsPerVlan` | tools/generate-subnets/main.go:130-135 | the IPv6 fields depend only on the VLAN number |
| `Enrichment.Insert` | tools/generate-subnets/main.go:148-165 | the new record is found at (router, VLAN number); every other entry is unchanged; the router keys gain only this router |
| `Enrichment.InsertOverwrites` | tools/generate-subnets/main.go:165 | a second store at the same key replaces the first completely |
| `GenerateSubnets.StoreIsInsert` | tools/generate-subnets/main.go:148-165 | creating the inner map when the router is new and then assigning into it is one `Insert` |
| `GenerateSubnets.CollectAddresses` | tools/generate-subnets/main.go:137-140 | the append loop yields the flattened address list |
| `GenerateSubnets.EnrichSubnet` | tools/generate-subnets/main.go:137-165 | one pass of the subnet loop fails with a division by zero exactly when the vCenter list is empty; otherwise it stores the subnet's record, with the vCenter of the VLAN's raw position, by `Insert` |
| `GenerateSubnets.ProcessVlan` | tools/generate-subnets/main.go:126-185 | the filter and the subnet loop compute the VLAN's step of the fold, failing as `i % 0` does |
| `GenerateSubnets.ProcessAccount` | tools/generate-subnets/main.go:125-188 | the VLAN loop, indexed by raw position, computes the account's fold and stops at the first failure |
| `GenerateSubnets.GenerateSubnets` | tools/generate-subnets/main.go:114-189 | the account loop computes the whole run, stopping at a failed fetch or a failure |
| `RunProperties.InsertAllCollapse` | tools/generate-subnets/main.go:128-165 | storing several records at one (router, VLAN number) key leaves only the last; this is why only the last subnet of a VLAN survives |
| `RunProperties.VlanStepEffect` | tools/generate-subnets/main.go:125-165 | a VLAN that does not write leaves the map unchanged; a writing VLAN fails exactly when its vCenter list is empty, and otherwise stores its last subnet's record with the vCenter of its raw position |
| `RunProperties.ProcessVlansFailure` | tools/generate-subnets/main.go:125-163 | an account's loop fails exactly when one of its writing VLANs has an empty vCenter list |
| `RunProperties.ProcessVlansEntries` | tools/generate-subnets/main.go:125-188 | unwritten entries keep their value; each entry holds the last writing VLAN's last-subnet record, with the vCenter of that VLAN's raw position; router keys gain exactly the routers of writing VLANs |
| `RunProperties.NonWritingVlanIgnored` | tools/generate-subnets/main.go:125-128 | replacing a non-writing VLAN (no name, no "ci", or no subnet) with any other non-writing VLAN changes nothing |
| `RunProperties.RunFailure` | tools/generate-subnets/main.go:114-163 | the account loop fails exactly when some remaining account's fetch fails or one of its writing VLANs has an empty vCenter list |
| `RunProperties.RunEntries` | tools/generate-subnets/main.go:114-189 | as `ProcessVlansEntries`, with writers ordered by account and then by raw position: a later account overwrites an earlier one |
| `RunProperties.GenerateResult` | tools/generate-subnets/main.go:102-189 | in a successful run, an entry is absent unless some VLAN writes it; otherwise it holds the last writer's last-subnet record with its round-robin vCenter; the router keys are exactly the routers of writing VLANs |
| `RunProperties.GenerateFailure` | tools/generate-subnets/main.go:114-189 | a run fails exactly when some account's fetch fails or some writing VLAN meets an empty vCenter list |
| `Scenarios.FilterExamples` | tools/generate-subnets/main.go:126-127 | "ci-east-1" passes; an unnamed VLAN does not |
| `Scenarios.FilterDrops` | tools/generate-subnets/main.go:127 | "prod-east" does not pass, nor does "CI-east-1": the test is case-sensitive |
| `Scenarios.SampleEntry` | tools/generate-subnets/main.go:165-184 | subnet 10.0.0.0/24 of VLAN 42 yields `machineNetworkCidr` "10.0.0.0/24", DNS server 10.0.0.1, addresses ["10.0.0.2"] and network text `fd65:a1a8:60ad:42::1/64` |
| `Scenarios.EndToEnd` | tools/generate-subnets/main.go:114-189 | one owner with VLAN 42 "ci-test" on "router-a" and vCenters ["vc1", "vc2"] yields exactly {"router-a": {42: record with vCenter "vc1"}} |

## Left out

- Flag parsing (`commandLineOptions`, lines 52-67) is I/O glue and is not modelled.
- Reading and decoding the vCenter and credential files (`parseVCenter`, `parseAuths`,
  lines 69-99) is not modelled. The model takes the decoded map and account list as
  inputs.
- The SoftLayer session and the `GetNetworkVlans` call (lines 116-123) are remote calls
  and are not modelled. Each `Account` carries their outcome: the fetched list in service
  order, or an error message, which ends the run as `log.Fatal` does.
- The `iplib` library (`Net6FromStr`, `String`, `Mask().Size()`, `Enumerate`) is not
  part of this model. The model takes it as a record of functions of the text given to
  `Net6FromStr`. No concrete IPv6 address value is claimed, and a failing `Enumerate`
  indexing (an empty slice) is not modelled.
- Logging (`log.Println`, `log.Printf`, lines 115 and 142-146) has no effect on the
  result and is not modelled.
- Marshalling the result to indented JSON and writing `subnets.json` (lines 190-199) is
  not modelled.
- Nil-pointer dereferences are not modelled. Every field the loop dereferences is taken
  as present, except the VLAN name, which the loop tests. The VLAN `id` and
  `fullyQualifiedName` fields are fetched but never read, so they are not modelled.
- `RawSubnet.ipAddressCount` is typed `nat`. It is only the capacity hint of `make`; a
  negative count would make `make` panic, and that case is not modelled.
- Go's `int` is 64 bits wide. VLAN numbers, prefix lengths and positions are only copied,
  formatted or reduced modulo a list length, so the model uses unbounded integers. With a
  non-negative position and a positive divisor, Go's `%` and Dafny's `%` agree.
- Go maps are references: the loop updates the inner map in place through the outer map.
  Every inner map is created fresh for its router and is never shared, so the model uses
  value maps that are reassigned.
