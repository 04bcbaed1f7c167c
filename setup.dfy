/**
  The device and node collection of async_setup in
  custom_components/smartbox/__init__.py: for each configured account,
  the devices the vendor returns are filtered against the account's
  configured device ids; afterwards the nodes of every kept device are
  collected, and the entity platforms are loaded only if some device was
  kept. Log lines are modelled as the values they report.
*/
module Setup {
  import opened Translator
  import opened Model

  /** A device as get_devices returns it, with the nodes it will list. */
  datatype FoundDevice = FoundDevice(devId: string, nodes: seq<NodeInfo>)

  /** One configured account: its configured device ids, and the devices
      the vendor returns for it. */
  datatype Account = Account(deviceIds: seq<string>, found: seq<FoundDevice>)

  /** The platforms loaded once a device is kept. */
  const Platforms: seq<string> := ["climate", "sensor"]

  function DevIds(devices: seq<FoundDevice>): set<string>
  {
    set d | d in devices :: d.devId
  }

  /** The devices of one account that are kept: those whose id is
      configured, in the order returned. */
  function Configured(deviceIds: seq<string>, devices: seq<FoundDevice>): seq<FoundDevice>
  {
    if devices == [] then []
    else
      var rest := Configured(deviceIds, devices[..|devices| - 1]);
      var last := devices[|devices| - 1];
      if last.devId in deviceIds then rest + [last] else rest
  }

  /** The devices kept over a sequence of accounts, accumulated in order. */
  function KeptDevices(accounts: seq<Account>): seq<FoundDevice>
  {
    if accounts == [] then []
    else
      var last := accounts[|accounts| - 1];
      KeptDevices(accounts[..|accounts| - 1]) + Configured(last.deviceIds, last.found)
  }

  /** The concatenation of the nodes of the given devices. */
  function NodesOf(devices: seq<FoundDevice>): seq<NodeInfo>
  {
    if devices == [] then [] else NodesOf(devices[..|devices| - 1]) + devices[|devices| - 1].nodes
  }

  /** The types of the nodes that are not supported, one per such node, in
      order. */
  function UnsupportedTypes(nodes: seq<NodeInfo>): seq<string>
  {
    if nodes == [] then []
    else
      var last := nodes[|nodes| - 1];
      UnsupportedTypes(nodes[..|nodes| - 1]) + (if IsHeaterNode(last.nodeType) then [] else [last.nodeType])
  }

  function IdSet(ids: seq<string>): set<string>
  {
    set id | id in ids
  }

  /** The found ids of an account that are not configured (each logged as a
      warning and ignored). */
  function Unconfigured(account: Account): set<string>
  {
    DevIds(account.found) - IdSet(account.deviceIds)
  }

  /** The configured ids of account i that are not among the devices kept
      up to and including it (each logged as an error). */
  function Missing(accounts: seq<Account>, i: nat): set<string>
    requires i < |accounts|
  {
    IdSet(accounts[i].deviceIds) - DevIds(KeptDevices(accounts[..i + 1]))
  }

  /** What async_setup leaves behind. */
  datatype SetupResult = SetupResult(
    devices: seq<FoundDevice>,
    nodes: seq<NodeInfo>,
    unconfigured: seq<set<string>>,
    missing: seq<set<string>>,
    unsupported: seq<string>,
    platforms: seq<string>)

  /** async_setup, lines 63-107: the per-account filtering loop, then the
      node collection loop, then platform loading. */
  method AsyncSetup(accounts: seq<Account>) returns (r: SetupResult)
    ensures r.devices == KeptDevices(accounts)
    ensures r.nodes == NodesOf(r.devices)
    ensures r.unsupported == UnsupportedTypes(r.nodes)
    ensures |r.unconfigured| == |accounts| && |r.missing| == |accounts|
    ensures forall i :: 0 <= i < |accounts| ==> r.unconfigured[i] == Unconfigured(accounts[i])
    ensures forall i :: 0 <= i < |accounts| ==>
      r.missing[i] == Missing(accounts, i)
    ensures r.platforms == if r.devices == [] then [] else Platforms
  {
    var devices, unconfigured, missing := FilterAccounts(accounts);
    var nodes, unsupported := CollectNodes(devices);
    var platforms := if devices == [] then [] else Platforms;
    r := SetupResult(devices, nodes, unconfigured, missing, unsupported, platforms);
  }

  /** The loop over accounts: keeps the configured devices and reports,
      per account, the found ids that are not configured and the
      configured ids not among the devices kept so far. */
  method FilterAccounts(accounts: seq<Account>) returns (devices: seq<FoundDevice>, unconfigured: seq<set<string>>, missing: seq<set<string>>)
    ensures devices == KeptDevices(accounts)
    ensures |unconfigured| == |accounts| && |missing| == |accounts|
    ensures forall i :: 0 <= i < |accounts| ==> unconfigured[i] == Unconfigured(accounts[i])
    ensures forall i :: 0 <= i < |accounts| ==>
      missing[i] == Missing(accounts, i)
  {
    devices := [];
    unconfigured := [];
    missing := [];
    for i := 0 to |accounts|
      invariant devices == KeptDevices(accounts[..i])
      invariant |unconfigured| == i && |missing| == i
      invariant forall j :: 0 <= j < i ==> unconfigured[j] == Unconfigured(accounts[j])
      invariant forall j :: 0 <= j < i ==> missing[j] == Missing(accounts, j)
    {
      var account := accounts[i];
      unconfigured := unconfigured + [Unconfigured(account)];
      var kept := KeepConfigured(account);
      assert accounts[..i + 1][..i] == accounts[..i];
      devices := devices + kept;
      assert devices == KeptDevices(accounts[..i + 1]);
      missing := missing + [IdSet(account.deviceIds) - DevIds(devices)];
    }
    assert accounts[..|accounts|] == accounts;
  }

  /** The loop over one account's devices, keeping the configured ones. */
  method KeepConfigured(account: Account) returns (kept: seq<FoundDevice>)
    ensures kept == Configured(account.deviceIds, account.found)
  {
    kept := [];
    for k := 0 to |account.found|
      invariant kept == Configured(account.deviceIds, account.found[..k])
    {
      assert account.found[..k + 1][..k] == account.found[..k];
      var device := account.found[k];
      if device.devId in account.deviceIds {
        kept := kept + [device];
      }
    }
    assert account.found[..|account.found|] == account.found;
  }

  /** The loop over the kept devices: collects their nodes and the types
      of the unsupported ones. */
  method CollectNodes(devices: seq<FoundDevice>) returns (nodes: seq<NodeInfo>, unsupported: seq<string>)
    ensures nodes == NodesOf(devices)
    ensures unsupported == UnsupportedTypes(nodes)
  {
    nodes := [];
    unsupported := [];
    for i := 0 to |devices|
      invariant nodes == NodesOf(devices[..i])
      invariant unsupported == UnsupportedTypes(nodes)
    {
      var deviceNodes := devices[i].nodes;
      var more := UnsupportedOf(nodes, deviceNodes, unsupported);
      unsupported := more;
      assert devices[..i + 1][..i] == devices[..i];
      nodes := nodes + deviceNodes;
    }
    assert devices[..|devices|] == devices;
  }

  /** The check of one device's nodes: appends the type of each
      unsupported one to what was already logged for `before`. */
  method UnsupportedOf(before: seq<NodeInfo>, deviceNodes: seq<NodeInfo>, logged: seq<string>) returns (unsupported: seq<string>)
    requires logged == UnsupportedTypes(before)
    ensures unsupported == UnsupportedTypes(before + deviceNodes)
  {
    unsupported := logged;
    assert before + deviceNodes[..0] == before;
    for k := 0 to |deviceNodes|
      invariant unsupported == UnsupportedTypes(before + deviceNodes[..k])
    {
      assert (before + deviceNodes[..k + 1])[..|before| + k] == before + deviceNodes[..k];
      if !IsHeaterNode(deviceNodes[k].nodeType) {
        unsupported := unsupported + [deviceNodes[k].nodeType];
      }
    }
    assert deviceNodes[..|deviceNodes|] == deviceNodes;
  }

  /** A device is kept from an account exactly when the vendor returned it
      for that account and its id is configured there. */
  lemma {:induction false} ConfiguredMembers(deviceIds: seq<string>, devices: seq<FoundDevice>, d: FoundDevice)
    ensures d in Configured(deviceIds, devices) <==> d in devices && d.devId in deviceIds
  {
    if devices != [] {
      var prefix := devices[..|devices| - 1];
      ConfiguredMembers(deviceIds, prefix, d);
      assert devices == prefix + [devices[|devices| - 1]];
    }
  }

  /** Kept devices are exactly the configured ones across all accounts. */
  lemma {:induction false} KeptDevicesMembers(accounts: seq<Account>, d: FoundDevice)
    ensures d in KeptDevices(accounts) <==>
      exists i :: 0 <= i < |accounts| && d in accounts[i].found && d.devId in accounts[i].deviceIds
  {
    if accounts != [] {
      var n := |accounts| - 1;
      var prefix := accounts[..n];
      KeptDevicesMembers(prefix, d);
      ConfiguredMembers(accounts[n].deviceIds, accounts[n].found, d);
      if exists i :: 0 <= i < |accounts| && d in accounts[i].found && d.devId in accounts[i].deviceIds {
        var i :| 0 <= i < |accounts| && d in accounts[i].found && d.devId in accounts[i].deviceIds;
        if i < n {
          assert prefix[i] == accounts[i];
        }
      }
    }
  }

  /** Filtering an account never adds devices: it keeps at most what the
      vendor returned, and all of it, in the vendor's order, when every
      returned id is configured. */
  lemma {:induction false} ConfiguredOrder(deviceIds: seq<string>, devices: seq<FoundDevice>)
    ensures |Configured(deviceIds, devices)| <= |devices|
    ensures (forall d :: d in devices ==> d.devId in deviceIds) ==> Configured(deviceIds, devices) == devices
  {
    if devices != [] {
      var prefix := devices[..|devices| - 1];
      ConfiguredOrder(deviceIds, prefix);
      assert devices == prefix + [devices[|devices| - 1]];
    }
  }

  /** An account whose configured ids were all found reports none
      missing. */
  lemma MissingOnlyWhenNotFound(accounts: seq<Account>, i: nat)
    requires i < |accounts|
    requires forall id :: id in accounts[i].deviceIds ==> id in DevIds(accounts[i].found)
    ensures Missing(accounts, i) == {}
  {
    var prefix := accounts[..i + 1];
    assert prefix[i] == accounts[i];
    forall id | id in accounts[i].deviceIds
      ensures id in DevIds(KeptDevices(prefix))
    {
      var d :| d in accounts[i].found && d.devId == id;
      KeptDevicesMembers(prefix, d);
    }
  }

  /** A found id that is not configured is never kept from that account. */
  lemma UnconfiguredNotKept(accounts: seq<Account>, i: nat, id: string)
    requires i < |accounts|
    requires id in Unconfigured(accounts[i])
    ensures forall d :: d in Configured(accounts[i].deviceIds, accounts[i].found) ==> d.devId != id
  {
    forall d | d in Configured(accounts[i].deviceIds, accounts[i].found)
      ensures d.devId != id
    {
      ConfiguredMembers(accounts[i].deviceIds, accounts[i].found, d);
    }
  }

  /** Every node of every kept device is collected, supported or not, and
      nothing else is. */
  lemma {:induction false} NodesOfMembers(devices: seq<FoundDevice>, n: NodeInfo)
    ensures n in NodesOf(devices) <==> exists d :: d in devices && n in d.nodes
  {
    if devices != [] {
      var last := devices[|devices| - 1];
      var prefix := devices[..|devices| - 1];
      NodesOfMembers(prefix, n);
      assert devices == prefix + [last];
    }
  }

  /** The unsupported types logged are exactly the types of the collected
      nodes that are not heaters. */
  lemma {:induction false} UnsupportedTypesMembers(nodes: seq<NodeInfo>, t: string)
    ensures t in UnsupportedTypes(nodes) <==> !IsHeaterNode(t) && exists n :: n in nodes && n.nodeType == t
  {
    if nodes != [] {
      var last := nodes[|nodes| - 1];
      var prefix := nodes[..|nodes| - 1];
      UnsupportedTypesMembers(prefix, t);
      assert nodes == prefix + [last];
    }
  }
}
