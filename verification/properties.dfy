/** What a run computes, stated against the raw inputs: which VLANs write, which entry
    survives at each (router, VLAN number), which router keys exist, and when the run
    fails. */
module RunProperties {
  import opened Wrappers
  import opened Inventory
  import opened Enrichment
  import opened GenerateSubnets

  /** The record of the last subnet of a VLAN. */
  function LastSubnetEntry(vlan: NetworkVlan, vc: string, lib: Net6Library): Subnet
    requires |vlan.subnets| > 0
  {
    SubnetEntry(vlan, vlan.subnets[|vlan.subnets| - 1], vc, lib)
  }

  /** A VLAN that would write, but whose configured vCenter list is empty. */
  predicate Blocked(vcenters: VCenterMap, username: string, vlan: NetworkVlan)
  {
    Contributes(vlan) && Unassignable(vcenters, username, vlan.primaryRouterHostname)
  }

  /** The VLAN at raw position j writes under router r. */
  predicate WritesRouterAt(vlans: seq<NetworkVlan>, j: int, r: string)
  {
    0 <= j < |vlans| && Contributes(vlans[j]) && vlans[j].primaryRouterHostname == r
  }

  /** The VLAN at raw position j writes the entry (r, n). */
  predicate WritesAt(vlans: seq<NetworkVlan>, j: int, r: string, n: int)
  {
    WritesRouterAt(vlans, j, r) && vlans[j].vlanNumber == n
  }

  /** The VLAN at raw position j is the last of the list to write (r, n). */
  ghost predicate LastWriteAt(vlans: seq<NetworkVlan>, j: int, r: string, n: int)
  {
    WritesAt(vlans, j, r, n) && forall j' :: WritesAt(vlans, j', r, n) ==> j' <= j
  }

  /** Storing several records at one key leaves only the last. */
  lemma {:induction false} InsertAllCollapse(m: ResultMap, router: string, vlanNumber: int, entries: seq<Subnet>, k: nat)
    requires k < |entries|
    ensures InsertAllFrom(m, router, vlanNumber, entries, k) == Insert(m, router, vlanNumber, entries[|entries| - 1])
    decreases |entries| - k
  {
    var m' := Insert(m, router, vlanNumber, entries[k]);
    if k + 1 < |entries| {
      InsertAllCollapse(m', router, vlanNumber, entries, k + 1);
      InsertOverwrites(m, router, vlanNumber, entries[k], entries[|entries| - 1]);
    }
  }

  /** One VLAN: a filtered-out or subnet-less VLAN changes nothing; a writing VLAN fails
      exactly when its vCenter list is empty, and otherwise stores the record of its last
      subnet, with the vCenter of its raw position, at (router, VLAN number). */
  lemma VlanStepEffect(m: ResultMap, username: string, vcenters: VCenterMap, position: nat, vlan: NetworkVlan, lib: Net6Library)
    ensures VlanStep(m, username, vcenters, position, vlan, lib).Failure? <==> Blocked(vcenters, username, vlan)
    ensures !Contributes(vlan) ==> VlanStep(m, username, vcenters, position, vlan, lib) == Success(m)
    ensures Contributes(vlan) && !Unassignable(vcenters, username, vlan.primaryRouterHostname) ==>
              VlanStep(m, username, vcenters, position, vlan, lib)
              == Success(Insert(m, vlan.primaryRouterHostname, vlan.vlanNumber,
                                LastSubnetEntry(vlan, VirtualCenterFor(vcenters, username, vlan.primaryRouterHostname, position).value, lib)))
  {
    if Contributes(vlan) && !Unassignable(vcenters, username, vlan.primaryRouterHostname) {
      var vc := VirtualCenterFor(vcenters, username, vlan.primaryRouterHostname, position).value;
      var entries := SubnetEntries(vlan, vc, lib);
      InsertAllCollapse(m, vlan.primaryRouterHostname, vlan.vlanNumber, entries, 0);
      assert entries[|entries| - 1] == LastSubnetEntry(vlan, vc, lib);
    }
  }

  /** An account's VLAN loop fails exactly when one of its writing VLANs has an empty
      vCenter list, whatever the result map holds. */
  lemma {:induction false} ProcessVlansFailure(m: ResultMap, username: string, vcenters: VCenterMap, vlans: seq<NetworkVlan>, lib: Net6Library, i: nat)
    requires i <= |vlans|
    ensures ProcessVlansFrom(m, username, vcenters, vlans, lib, i).Failure?
            <==> exists j :: i <= j < |vlans| && Blocked(vcenters, username, vlans[j])
    decreases |vlans| - i
  {
    if i < |vlans| {
      VlanStepEffect(m, username, vcenters, i, vlans[i], lib);
      match VlanStep(m, username, vcenters, i, vlans[i], lib)
      case Failure(_) =>
        assert Blocked(vcenters, username, vlans[i]);
      case Success(m') =>
        ProcessVlansFailure(m', username, vcenters, vlans, lib, i + 1);
        assert !Blocked(vcenters, username, vlans[i]);
    }
  }

  /** An account's VLAN loop, entry by entry: an entry no VLAN writes keeps its old value;
      the entry (r, n) holds the record of the last subnet of the last VLAN that writes it,
      with the vCenter of that VLAN's raw position; a router key exists afterwards exactly
      when it existed before or some writing VLAN is routed by it. */
  lemma {:induction false} ProcessVlansEntries(m: ResultMap, username: string, vcenters: VCenterMap, vlans: seq<NetworkVlan>, lib: Net6Library, i: nat, out: ResultMap)
    requires i <= |vlans|
    requires ProcessVlansFrom(m, username, vcenters, vlans, lib, i) == Success(out)
    ensures forall r, n :: (forall j :: i <= j ==> !WritesAt(vlans, j, r, n)) ==> Lookup(out, r, n) == Lookup(m, r, n)
    ensures forall j, r, n :: i <= j && LastWriteAt(vlans, j, r, n) ==>
              && VirtualCenterFor(vcenters, username, r, j).Success?
              && Lookup(out, r, n) == Some(LastSubnetEntry(vlans[j], VirtualCenterFor(vcenters, username, r, j).value, lib))
    ensures forall r :: r in out <==> r in m || exists j :: i <= j && WritesRouterAt(vlans, j, r)
    decreases |vlans| - i
  {
    if i == |vlans| {
      return;
    }
    var v := vlans[i];
    VlanStepEffect(m, username, vcenters, i, v, lib);
    var mid := VlanStep(m, username, vcenters, i, v, lib).value;
    assert ProcessVlansFrom(mid, username, vcenters, vlans, lib, i + 1) == Success(out);
    ProcessVlansEntries(mid, username, vcenters, vlans, lib, i + 1, out);

    forall r, n | forall j :: i <= j ==> !WritesAt(vlans, j, r, n)
      ensures Lookup(out, r, n) == Lookup(m, r, n)
    {
      assert !WritesAt(vlans, i, r, n);
      assert Lookup(mid, r, n) == Lookup(m, r, n);
    }
    forall j, r, n | i <= j && LastWriteAt(vlans, j, r, n)
      ensures && VirtualCenterFor(vcenters, username, r, j).Success?
              && Lookup(out, r, n) == Some(LastSubnetEntry(vlans[j], VirtualCenterFor(vcenters, username, r, j).value, lib))
    {
      if j == i {
        assert forall j' :: i + 1 <= j' ==> !WritesAt(vlans, j', r, n);
        assert Lookup(out, r, n) == Lookup(mid, r, n);
      }
    }
    forall r
      ensures r in out <==> r in m || exists j :: i <= j && WritesRouterAt(vlans, j, r)
    {
      if r in out && r !in m && !(exists j :: i + 1 <= j && WritesRouterAt(vlans, j, r)) {
        assert r in mid;
        assert WritesRouterAt(vlans, i, r);
      }
      if j :| i <= j && WritesRouterAt(vlans, j, r) {
        if j == i {
          assert r in mid;
        } else {
          assert i + 1 <= j && WritesRouterAt(vlans, j, r);
        }
      }
    }
  }

  /** Only the VLANs that write matter: replacing one that does not write (no name, no
      "ci" in its name, or no subnet) by any other that does not write changes nothing,
      and every other VLAN keeps its raw position and so its vCenter. */
  lemma {:induction false} NonWritingVlanIgnored(m: ResultMap, username: string, vcenters: VCenterMap, vlans: seq<NetworkVlan>, lib: Net6Library, i: nat, j: nat, v: NetworkVlan)
    requires i <= |vlans| && j < |vlans|
    requires !Contributes(vlans[j]) && !Contributes(v)
    ensures ProcessVlansFrom(m, username, vcenters, vlans[j := v], lib, i)
            == ProcessVlansFrom(m, username, vcenters, vlans, lib, i)
    decreases |vlans| - i
  {
    if i < |vlans| {
      assert VlanStep(m, username, vcenters, i, vlans[j := v][i], lib) == VlanStep(m, username, vcenters, i, vlans[i], lib);
      match VlanStep(m, username, vcenters, i, vlans[i], lib)
      case Failure(_) =>
      case Success(m') =>
        NonWritingVlanIgnored(m', username, vcenters, vlans, lib, i + 1, j, v);
    }
  }

  /** The VLANs of an account, or none when its fetch failed. */
  function VlansOf(c: Account): seq<NetworkVlan>
  {
    if c.fetched.Success? then c.fetched.value else []
  }

  /** An account whose fetch fails or one of whose writing VLANs has no vCenter to pick. */
  predicate AccountFails(vcenters: VCenterMap, c: Account)
  {
    c.fetched.Failure? || exists j :: 0 <= j < |c.fetched.value| && Blocked(vcenters, c.username, c.fetched.value[j])
  }

  /** The VLAN at raw position j of account b writes under router r. */
  predicate WritesRouter(accounts: seq<Account>, b: int, j: int, r: string)
  {
    0 <= b < |accounts| && WritesRouterAt(VlansOf(accounts[b]), j, r)
  }

  /** The VLAN at raw position j of account b writes the entry (r, n). */
  predicate Writes(accounts: seq<Account>, b: int, j: int, r: string, n: int)
  {
    0 <= b < |accounts| && WritesAt(VlansOf(accounts[b]), j, r, n)
  }

  /** No VLAN after (b, j), in account order and then list order, writes (r, n). */
  ghost predicate LastWrite(accounts: seq<Account>, b: int, j: int, r: string, n: int)
  {
    Writes(accounts, b, j, r, n) && forall b', j' :: Writes(accounts, b', j', r, n) ==> b' < b || (b' == b && j' <= j)
  }

  /** The account loop fails exactly when some remaining account fails, whatever the
      result map holds. */
  lemma {:induction false} RunFailure(m: ResultMap, accounts: seq<Account>, vcenters: VCenterMap, lib: Net6Library, a: nat)
    requires a <= |accounts|
    ensures RunAccountsFrom(m, accounts, vcenters, lib, a).Failure?
            <==> exists b :: a <= b < |accounts| && AccountFails(vcenters, accounts[b])
    decreases |accounts| - a
  {
    if a < |accounts| {
      var c := accounts[a];
      if c.fetched.Failure? {
        assert AccountFails(vcenters, accounts[a]);
      } else {
        var vlans := c.fetched.value;
        ProcessVlansFailure(m, c.username, vcenters, vlans, lib, 0);
        match ProcessVlansFrom(m, c.username, vcenters, vlans, lib, 0)
        case Failure(_) =>
          assert AccountFails(vcenters, accounts[a]);
        case Success(m') =>
          RunFailure(m', accounts, vcenters, lib, a + 1);
          assert !AccountFails(vcenters, accounts[a]);
      }
    }
  }

  /** The account loop, entry by entry, as ProcessVlansEntries with the writers ordered by
      account and then by raw position: a later account overwrites an earlier one. */
  lemma {:induction false} RunEntries(m: ResultMap, accounts: seq<Account>, vcenters: VCenterMap, lib: Net6Library, a: nat, out: ResultMap)
    requires a <= |accounts|
    requires RunAccountsFrom(m, accounts, vcenters, lib, a) == Success(out)
    ensures forall r, n :: (forall b, j :: a <= b ==> !Writes(accounts, b, j, r, n)) ==> Lookup(out, r, n) == Lookup(m, r, n)
    ensures forall b, j, r, n :: a <= b && LastWrite(accounts, b, j, r, n) ==>
              && VirtualCenterFor(vcenters, accounts[b].username, r, j).Success?
              && Lookup(out, r, n) == Some(LastSubnetEntry(VlansOf(accounts[b])[j], VirtualCenterFor(vcenters, accounts[b].username, r, j).value, lib))
    ensures forall r :: r in out <==> r in m || exists b, j :: a <= b && WritesRouter(accounts, b, j, r)
    decreases |accounts| - a
  {
    if a == |accounts| {
      return;
    }
    var c := accounts[a];
    var vlans := c.fetched.value;
    assert VlansOf(c) == vlans;
    var mid := ProcessVlansFrom(m, c.username, vcenters, vlans, lib, 0).value;
    ProcessVlansEntries(m, c.username, vcenters, vlans, lib, 0, mid);
    RunEntries(mid, accounts, vcenters, lib, a + 1, out);

    forall r, n | forall b, j :: a <= b ==> !Writes(accounts, b, j, r, n)
      ensures Lookup(out, r, n) == Lookup(m, r, n)
    {
      assert forall j :: 0 <= j ==> !WritesAt(vlans, j, r, n) by {
        forall j | 0 <= j ensures !WritesAt(vlans, j, r, n) {
          assert !Writes(accounts, a, j, r, n);
        }
      }
      assert Lookup(mid, r, n) == Lookup(m, r, n);
    }
    forall b, j, r, n | a <= b && LastWrite(accounts, b, j, r, n)
      ensures && VirtualCenterFor(vcenters, accounts[b].username, r, j).Success?
              && Lookup(out, r, n) == Some(LastSubnetEntry(VlansOf(accounts[b])[j], VirtualCenterFor(vcenters, accounts[b].username, r, j).value, lib))
    {
      if b == a {
        assert LastWriteAt(vlans, j, r, n) by {
          forall j' | WritesAt(vlans, j', r, n) ensures j' <= j {
            assert Writes(accounts, a, j', r, n);
          }
        }
        assert forall b', j' :: a + 1 <= b' ==> !Writes(accounts, b', j', r, n);
        assert Lookup(out, r, n) == Lookup(mid, r, n);
      }
    }
    forall r
      ensures r in out <==> r in m || exists b, j :: a <= b && WritesRouter(accounts, b, j, r)
    {
      if r in out && r !in m && !(exists b, j :: a + 1 <= b && WritesRouter(accounts, b, j, r)) {
        assert r in mid;
        var j :| 0 <= j && WritesRouterAt(vlans, j, r);
        assert WritesRouter(accounts, a, j, r);
      }
      if b, j :| a <= b && WritesRouter(accounts, b, j, r) {
        if b == a {
          assert WritesRouterAt(vlans, j, r);
          assert r in mid;
        } else {
          assert a + 1 <= b && WritesRouter(accounts, b, j, r);
        }
      }
    }
  }

  /** The result of a whole run that succeeds: the entry (r, n) is absent unless some VLAN
      writes it, and then holds the record of the last subnet of the last VLAN (by account,
      then by raw position) that writes it, with that VLAN's round-robin vCenter; the router
      keys are exactly the routers of writing VLANs. */
  lemma GenerateResult(accounts: seq<Account>, vcenters: VCenterMap, lib: Net6Library, out: ResultMap)
    requires Generate(accounts, vcenters, lib) == Success(out)
    ensures forall r, n :: (forall b, j :: !Writes(accounts, b, j, r, n)) ==> Lookup(out, r, n) == None
    ensures forall b, j, r, n :: LastWrite(accounts, b, j, r, n) ==>
              && VirtualCenterFor(vcenters, accounts[b].username, r, j).Success?
              && Lookup(out, r, n) == Some(LastSubnetEntry(VlansOf(accounts[b])[j], VirtualCenterFor(vcenters, accounts[b].username, r, j).value, lib))
    ensures forall r :: r in out <==> exists b, j :: WritesRouter(accounts, b, j, r)
  {
    RunEntries(map[], accounts, vcenters, lib, 0, out);
  }

  /** A run fails exactly when some account's fetch fails or some writing VLAN meets an
      empty vCenter list; then nothing is written. */
  lemma GenerateFailure(accounts: seq<Account>, vcenters: VCenterMap, lib: Net6Library)
    ensures Generate(accounts, vcenters, lib).Failure?
            <==> exists b :: 0 <= b < |accounts| && AccountFails(vcenters, accounts[b])
  {
    RunFailure(map[], accounts, vcenters, lib, 0);
  }
}
