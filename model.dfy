/**
  The device/node state layer of custom_components/smartbox/model.py.

  A SmartboxDevice owns a table of SmartboxNodes keyed by (node type,
  address) and routes the push messages of its device to them; a
  SmartboxNode caches its node's latest status and away flag and writes
  commands through the vendor session, merging them locally once the
  session call has returned.
*/
module Model {
  import opened Types
  import opened TopicPaths

  /** A node as the vendor lists it ("addr", "name", "type"). */
  datatype NodeInfo = NodeInfo(addr: nat, name: string, nodeType: string)

  /** The key of a device's node table. */
  datatype NodeKey = NodeKey(nodeType: string, addr: nat)

  function KeyOf(info: NodeInfo): NodeKey
  {
    NodeKey(info.nodeType, info.addr)
  }

  /** A command sent through the vendor session: a node status update, or
      the device-wide away status. */
  datatype Command =
    | SetStatusCommand(devId: string, node: NodeInfo, args: StatusMap)
    | SetAwayCommand(devId: string, away: bool)

  /** The vendor session, as far as node commands go. It records every
      command it accepts; whether the network call succeeds is the
      environment's choice, given by `online`. */
  class Session {
    var sent: seq<Command>
    var online: bool

    constructor (online: bool)
      ensures sent == [] && this.online == online
    {
      sent := [];
      this.online := online;
    }

    /** set_status(dev_id, node_info, args): raises when the call fails. */
    method SetStatus(devId: string, node: NodeInfo, args: StatusMap) returns (r: Outcome)
      modifies this`sent
      ensures r == if online then Pass else Fail(NetworkError)
      ensures sent == if online then old(sent) + [SetStatusCommand(devId, node, args)] else old(sent)
    {
      if online {
        sent := sent + [SetStatusCommand(devId, node, args)];
        r := Pass;
      } else {
        r := Fail(NetworkError);
      }
    }

    /** Sets a device's away status at the vendor; raises when the call
        fails. */
    method SetAwayStatus(devId: string, away: bool) returns (r: Outcome)
      modifies this`sent
      ensures r == if online then Pass else Fail(NetworkError)
      ensures sent == if online then old(sent) + [SetAwayCommand(devId, away)] else old(sent)
    {
      if online {
        sent := sent + [SetAwayCommand(devId, away)];
        r := Pass;
      } else {
        r := Fail(NetworkError);
      }
    }
  }

  /** What the vendor returns for one node at start-up: its listing and its
      status. */
  datatype Snapshot = Snapshot(info: NodeInfo, status: StatusMap)

  /** A push message: its topic path and its body. */
  datatype Update = Update(path: string, body: StatusMap)

  /** What on_update did with a message (which log line, if any, it wrote,
      or the error it raised). */
  datatype Dispatch =
    | StatusRouted
    | UnknownNode(nodeType: string, addr: nat)
    | AwayRouted
    | Skipped
    | NotMatched
    | Raised(error: Error)

  /** The node table initialise_nodes builds: one entry per (type, address),
      a later snapshot with the same key replacing an earlier one. */
  function Table(snapshots: seq<Snapshot>): map<NodeKey, StatusMap>
  {
    if snapshots == [] then map[]
    else
      var last := snapshots[|snapshots| - 1];
      Table(snapshots[..|snapshots| - 1])[KeyOf(last.info) := last.status]
  }

  /** Every snapshot's key is in the table, nothing else is, and each key
      holds the status of the last snapshot carrying it. */
  lemma {:induction false} TableContents(snapshots: seq<Snapshot>, key: NodeKey)
    ensures key in Table(snapshots) <==> exists i :: 0 <= i < |snapshots| && KeyOf(snapshots[i].info) == key
    ensures forall i :: 0 <= i < |snapshots| && KeyOf(snapshots[i].info) == key ==>
      ((forall j :: i < j < |snapshots| ==> KeyOf(snapshots[j].info) != key) ==>
       Table(snapshots)[key] == snapshots[i].status)
  {
    if snapshots != [] {
      var n := |snapshots| - 1;
      var prefix := snapshots[..n];
      TableContents(prefix, key);
      if KeyOf(snapshots[n].info) != key {
        forall i | 0 <= i < n && KeyOf(snapshots[i].info) == key
          ensures KeyOf(prefix[i].info) == key && prefix[i] == snapshots[i]
        {
        }
      }
    }
  }

  class SmartboxDevice {
    const devId: string
    const session: Session
    var nodes: map<NodeKey, SmartboxNode>
    /** How many push-channel sessions were opened for this device. */
    var socketSessions: nat

    /** Every node sits under its own key, belongs to this device and shares
        its session. Distinct keys therefore hold distinct nodes. */
    ghost predicate Valid()
      reads this
    {
      forall k :: k in nodes ==> nodes[k].Key() == k && nodes[k].device == this && nodes[k].session == session
    }

    /** The status of every node, by key. */
    function Statuses(): map<NodeKey, StatusMap>
      reads this, nodes.Values
    {
      map k | k in nodes :: nodes[k].status
    }

    /** The away flag of every node, by key. */
    function Aways(): map<NodeKey, bool>
      reads this, nodes.Values
    {
      map k | k in nodes :: nodes[k].away
    }

    constructor (devId: string, session: Session)
      ensures this.devId == devId && this.session == session
      ensures nodes == map[] && socketSessions == 0
      ensures Valid()
    {
      this.devId := devId;
      this.session := session;
      nodes := map[];
      socketSessions := 0;
    }

    /** One step of initialise_nodes: a fresh node for the snapshot, put
        under its key (replacing any node already there). */
    method AddNode(snapshot: Snapshot) returns (node: SmartboxNode)
      requires Valid()
      modifies this`nodes
      ensures Valid()
      ensures fresh(node) && !node.away && node.Key() == KeyOf(snapshot.info)
      ensures nodes == old(nodes)[node.Key() := node]
      ensures Statuses() == old(Statuses())[KeyOf(snapshot.info) := snapshot.status]
    {
      ghost var before := Statuses();
      node := new SmartboxNode(this, snapshot.info, session, snapshot.status);
      nodes := nodes[node.Key() := node];
      assert Statuses() == before[node.Key() := snapshot.status];
    }

    /** initialise_nodes: builds the node table from the vendor's snapshots
        (fresh nodes, not away), then opens one push-channel session. */
    method InitialiseNodes(snapshots: seq<Snapshot>)
      modifies this
      ensures Valid()
      ensures Statuses() == Table(snapshots)
      ensures forall k :: k in nodes ==> fresh(nodes[k]) && !nodes[k].away
      ensures socketSessions == old(socketSessions) + 1
    {
      nodes := map[];
      var i := 0;
      while i < |snapshots|
        invariant 0 <= i <= |snapshots|
        invariant Valid()
        invariant Statuses() == Table(snapshots[..i])
        invariant forall k :: k in nodes ==> fresh(nodes[k]) && !nodes[k].away
        invariant socketSessions == old(socketSessions)
      {
        var node := AddNode(snapshots[i]);
        assert snapshots[..i + 1][..i] == snapshots[..i];
        i := i + 1;
      }
      assert snapshots[..i] == snapshots;
      socketSessions := socketSessions + 1;
    }

    /** Sets the away flag of every node of this device (the loop of
        _away_status_update). */
    method SetNodesAway(away: bool)
      requires Valid()
      modifies nodes.Values
      ensures Aways() == map k | k in nodes :: away
      ensures Statuses() == old(Statuses())
    {
      var todo := nodes.Values;
      while todo != {}
        invariant todo <= nodes.Values
        invariant forall n :: n in nodes.Values && n !in todo ==> n.away == away
        invariant forall n :: n in nodes.Values ==> n.status == old(n.status)
        decreases todo
      {
        var n :| n in todo;
        n.SetAway(away);
        todo := todo - {n};
      }
    }

    /** update_device_away_status: the device's away status is set at the
        vendor and, once that call has succeeded, on every node; a failed
        call changes no node. */
    method UpdateAwayStatus(away: bool) returns (r: Outcome)
      requires Valid()
      modifies nodes.Values, session`sent
      ensures r == if session.online then Pass else Fail(NetworkError)
      ensures session.sent == if session.online then old(session.sent) + [SetAwayCommand(devId, away)] else old(session.sent)
      ensures Aways() == if session.online then (map k | k in nodes :: away) else old(Aways())
      ensures Statuses() == old(Statuses())
    {
      r := session.SetAwayStatus(devId, away);
      if r.Pass? {
        SetNodesAway(away);
      }
    }

    /** _away_status_update: every node takes the truth value of the body's
        "away" entry. The entry is read once per node, so a body without it
        raises a KeyError only when the device has a node; nothing changes
        then. */
    method AwayStatusUpdate(awayStatus: StatusMap) returns (r: Outcome)
      requires Valid()
      modifies nodes.Values
      ensures r.Fail? <==> nodes != map[] && "away" !in awayStatus
      ensures r.Fail? ==> r.error == MissingKey("away") && Aways() == old(Aways())
      ensures "away" in awayStatus ==> Aways() == map k | k in nodes :: Truthy(awayStatus["away"])
      ensures Statuses() == old(Statuses())
    {
      if nodes == map[] {
        r := Pass;
      } else if "away" !in awayStatus {
        r := Fail(MissingKey("away"));
      } else {
        SetNodesAway(Truthy(awayStatus["away"]));
        r := Pass;
      }
    }

    /** on_dev_data: the device data must carry "away_status". */
    method OnDevData(data: map<string, StatusMap>) returns (r: Outcome)
      requires Valid()
      modifies nodes.Values
      ensures "away_status" !in data ==> r == Fail(MissingKey("away_status")) && Aways() == old(Aways())
      ensures "away_status" in data ==>
        (r.Fail? <==> nodes != map[] && "away" !in data["away_status"])
      ensures "away_status" in data && "away" in data["away_status"] ==>
        Aways() == map k | k in nodes :: Truthy(data["away_status"]["away"])
      ensures r.Fail? ==> Aways() == old(Aways())
      ensures Statuses() == old(Statuses())
    {
      if "away_status" !in data {
        r := Fail(MissingKey("away_status"));
      } else {
        r := AwayStatusUpdate(data["away_status"]);
      }
    }

    /** _node_status_update: replaces the status of node (type, addr) with
        the body and touches no other node; an unknown node changes
        nothing. */
    method NodeStatusUpdate(nodeType: string, addr: nat, body: StatusMap) returns (found: bool)
      requires Valid()
      modifies nodes.Values
      ensures found == (NodeKey(nodeType, addr) in nodes)
      ensures Statuses() == if found then old(Statuses())[NodeKey(nodeType, addr) := body] else old(Statuses())
      ensures Aways() == old(Aways())
    {
      var key := NodeKey(nodeType, addr);
      found := key in nodes;
      if found {
        nodes[key].UpdateStatus(body);
      }
    }

    /** on_update: routes a push message by its path, status topics first,
        then away status, then the skip list; anything else is only logged. */
    method OnUpdate(update: Update) returns (r: Dispatch)
      requires Valid()
      modifies nodes.Values
      ensures match RouteOf(update.path)
        case NodeStatus(t, a) =>
          (if NodeKey(t, a) in nodes
           then r == StatusRouted && Statuses() == old(Statuses())[NodeKey(t, a) := update.body]
           else r == UnknownNode(t, a) && Statuses() == old(Statuses())) &&
          Aways() == old(Aways())
        case AwayStatus =>
          Statuses() == old(Statuses()) &&
          (r.Raised? <==> nodes != map[] && "away" !in update.body) &&
          (r.Raised? ==> r.error == MissingKey("away") && Aways() == old(Aways())) &&
          (!r.Raised? ==> r == AwayRouted) &&
          ("away" in update.body ==> Aways() == map k | k in nodes :: Truthy(update.body["away"]))
        case Skip =>
          r == Skipped && Statuses() == old(Statuses()) && Aways() == old(Aways())
        case Unmatched =>
          r == NotMatched && Statuses() == old(Statuses()) && Aways() == old(Aways())
    {
      match RouteOf(update.path)
      case NodeStatus(t, a) =>
        var found := NodeStatusUpdate(t, a, update.body);
        r := if found then StatusRouted else UnknownNode(t, a);
      case AwayStatus =>
        var outcome := AwayStatusUpdate(update.body);
        r := if outcome.Pass? then AwayRouted else Raised(outcome.error);
      case Skip =>
        r := Skipped;
      case Unmatched =>
        r := NotMatched;
    }
  }

  class SmartboxNode {
    const device: SmartboxDevice
    const info: NodeInfo
    const session: Session
    var status: StatusMap
    var away: bool

    constructor (device: SmartboxDevice, info: NodeInfo, session: Session, status: StatusMap)
      ensures this.device == device && this.info == info && this.session == session
      ensures this.status == status && !away
    {
      this.device := device;
      this.info := info;
      this.session := session;
      this.status := status;
      away := false;
    }

    function Key(): NodeKey
    {
      KeyOf(info)
    }

    /** node_id: the device id, a dash, and the address in decimal. */
    function NodeId(): (id: string)
      ensures |id| > |device.devId| + 1
      ensures id[..|device.devId| + 1] == device.devId + "-"
      ensures AllDigits(id[|device.devId| + 1..]) && DigitsValue(id[|device.devId| + 1..]) == info.addr
    {
      DigitsValueOfNatToString(info.addr);
      assert (device.devId + "-" + NatToString(info.addr))[|device.devId| + 1..] == NatToString(info.addr);
      device.devId + "-" + NatToString(info.addr)
    }

    /** update_status: replaces the whole status. */
    method UpdateStatus(newStatus: StatusMap)
      modifies this`status
      ensures status == newStatus
    {
      status := newStatus;
    }

    /** set_status: sends exactly `args` through the session and, only once
        that call has returned, merges them into the local status. A failed
        call leaves the status as it was. Returns the new status. */
    method SetStatus(args: StatusMap) returns (r: Result<StatusMap>)
      modifies this`status, session`sent
      ensures session.sent ==
        if session.online then old(session.sent) + [SetStatusCommand(device.devId, info, args)] else old(session.sent)
      ensures session.online ==> status == Merge(old(status), args) && r == Ok(status)
      ensures !session.online ==> status == old(status) && r == Err(NetworkError)
    {
      var sent := session.SetStatus(device.devId, info, args);
      if sent.Fail? {
        r := Err(sent.error);
        return;
      }
      status := Merge(status, args);
      r := Ok(status);
    }

    /** The away setter. */
    method SetAway(newAway: bool)
      modifies this`away
      ensures away == newAway
    {
      away := newAway;
    }
  }

  /** node_id tells apart the nodes of one device with different addresses,
      but not nodes that share an address and differ only in type. */
  lemma NodeIdByAddress(n1: SmartboxNode, n2: SmartboxNode)
    requires n1.device == n2.device
    ensures n1.NodeId() == n2.NodeId() <==> n1.info.addr == n2.info.addr
  {
    var prefix := n1.device.devId + "-";
    var s1, s2 := NatToString(n1.info.addr), NatToString(n2.info.addr);
    if n1.NodeId() == n2.NodeId() {
      assert prefix + s1 == prefix + s2;
      assert s1 == (prefix + s1)[|prefix|..];
      assert s2 == (prefix + s2)[|prefix|..];
      DigitsValueOfNatToString(n1.info.addr);
      DigitsValueOfNatToString(n2.info.addr);
    }
  }
}
