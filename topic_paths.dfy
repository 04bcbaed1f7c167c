/**
  The topic paths of push messages (custom_components/smartbox/model.py,
  the three regular expressions at the top of the file) and the decimal
  formatting of node addresses. Every pattern is applied with `re.match`,
  which anchors at the start of the path and not at its end, so each one
  is a prefix test here.
*/
module TopicPaths {
  import opened Types

  predicate IsDigit(c: char)
  {
    '0' <= c <= '9'
  }

  predicate AllDigits(s: string)
  {
    forall i :: 0 <= i < |s| ==> IsDigit(s[i])
  }

  function DigitValue(c: char): (d: nat)
    requires IsDigit(c)
    ensures d < 10
  {
    c as int - '0' as int
  }

  function DigitChar(d: nat): (c: char)
    requires d < 10
    ensures IsDigit(c) && DigitValue(c) == d
  {
    ('0' as int + d) as char
  }

  /** Number of characters before the first '/' (the `[^/]+` group). */
  function SegmentLength(s: string): (n: nat)
    ensures n <= |s|
    ensures forall i :: 0 <= i < n ==> s[i] != '/'
    ensures n < |s| ==> s[n] == '/'
  {
    if s == [] || s[0] == '/' then 0 else 1 + SegmentLength(s[1..])
  }

  /** Number of leading decimal digits (the greedy `\d+` group). */
  function DigitRunLength(s: string): (n: nat)
    ensures n <= |s|
    ensures AllDigits(s[..n])
    ensures n < |s| ==> !IsDigit(s[n])
  {
    if s == [] || !IsDigit(s[0]) then 0 else 1 + DigitRunLength(s[1..])
  }

  /** Python's int() of a string of decimal digits. */
  function DigitsValue(d: string): nat
    requires AllDigits(d)
  {
    if d == [] then 0 else 10 * DigitsValue(d[..|d| - 1]) + DigitValue(d[|d| - 1])
  }

  /** Python's str() of a non-negative int: its decimal digits, no leading
      zero. */
  function NatToString(n: nat): (s: string)
    ensures s != [] && AllDigits(s)
    ensures |s| > 1 ==> s[0] != '0'
  {
    if n < 10 then [DigitChar(n)] else NatToString(n / 10) + [DigitChar(n % 10)]
  }

  /** Parsing a formatted number gives the number back. */
  lemma {:induction false} DigitsValueOfNatToString(n: nat)
    ensures DigitsValue(NatToString(n)) == n
  {
    if n >= 10 {
      var s := NatToString(n);
      assert s[..|s| - 1] == NatToString(n / 10);
      DigitsValueOfNatToString(n / 10);
    }
  }

  lemma {:induction false} SegmentLengthOf(seg: string, rest: string)
    requires '/' !in seg
    ensures SegmentLength(seg + "/" + rest) == |seg|
  {
    if seg != [] {
      assert (seg + "/" + rest)[1..] == seg[1..] + "/" + rest;
      SegmentLengthOf(seg[1..], rest);
    }
  }

  lemma {:induction false} DigitRunLengthOf(digits: string, rest: string)
    requires AllDigits(digits)
    requires rest == [] || !IsDigit(rest[0])
    ensures DigitRunLength(digits + rest) == |digits|
  {
    if digits != [] {
      assert (digits + rest)[1..] == digits[1..] + rest;
      DigitRunLengthOf(digits[1..], rest);
    }
  }

  /** What "/{type}/{digits}" at the start of a path captures: the type
      (group 1), the digits (group 2) and the rest of the path. */
  datatype NodeTopic = NodeTopic(nodeType: string, digits: string, tail: string)

  /** The prefix "/([^/]+)/(\d+)" shared by the node status pattern and the
      node part of the skip pattern. Because the segment cannot contain '/'
      and must be followed by '/', and the digits must be followed by a
      non-digit, the only candidate match is the maximal one. */
  function MatchNodeTopic(path: string): (r: Option<NodeTopic>)
    ensures r.Some? ==>
      var t := r.value;
      t.nodeType != [] && '/' !in t.nodeType &&
      t.digits != [] && AllDigits(t.digits) && (t.tail == [] || !IsDigit(t.tail[0])) &&
      path == "/" + t.nodeType + "/" + t.digits + t.tail
  {
    if |path| == 0 || path[0] != '/' then None
    else
      var rest := path[1..];
      var n := SegmentLength(rest);
      if n == 0 || n == |rest| then None
      else
        var after := rest[n + 1..];
        var m := DigitRunLength(after);
        if m == 0 then None
        else
          assert path == "/" + rest[..n] + "/" + after[..m] + after[m..];
          Some(NodeTopic(rest[..n], after[..m], after[m..]))
  }

  /** Conversely, every path of that shape is matched, and the groups are
      the parts it was built from. */
  lemma MatchNodeTopicOf(nodeType: string, digits: string, tail: string)
    requires nodeType != [] && '/' !in nodeType
    requires digits != [] && AllDigits(digits)
    requires tail == [] || !IsDigit(tail[0])
    ensures MatchNodeTopic("/" + nodeType + "/" + digits + tail) == Some(NodeTopic(nodeType, digits, tail))
  {
    var path := "/" + nodeType + "/" + digits + tail;
    var rest := path[1..];
    assert rest == nodeType + "/" + (digits + tail);
    SegmentLengthOf(nodeType, digits + tail);
    var n := |nodeType|;
    assert rest[..n] == nodeType;
    var after := rest[n + 1..];
    assert after == digits + tail;
    DigitRunLengthOf(digits, tail);
    assert after[..|digits|] == digits;
    assert after[|digits|..] == tail;
  }

  /** Where a push message goes, by its path. */
  datatype Route = NodeStatus(nodeType: string, addr: nat) | AwayStatus | Skip | Unmatched

  /** The node-status pattern is tried first, then the away-status
      pattern, then the skip list; anything else is unmatched. */
  function RouteOf(path: string): (r: Route)
    ensures r.NodeStatus? ==> r.nodeType != [] && '/' !in r.nodeType && "/" + r.nodeType + "/" <= path
    ensures r == AwayStatus ==> "/mgr/away_status" <= path
    ensures r == Unmatched ==> !("/mgr/away_status" <= path) && !("/connected" <= path) && !("/mgr/nodes" <= path)
  {
    var node := MatchNodeTopic(path);
    if node.Some? && "/status" <= node.value.tail then
      NodeStatus(node.value.nodeType, DigitsValue(node.value.digits))
    else if "/mgr/away_status" <= path then
      AwayStatus
    else if "/connected" <= path || "/mgr/nodes" <= path ||
            (node.Some? && ("/prog" <= node.value.tail || "/setup" <= node.value.tail || "/version" <= node.value.tail)) then
      Skip
    else
      Unmatched
  }

  /** A node status topic, as the vendor formats it, routes to that node
      whatever follows "/status". */
  lemma StatusTopicRoute(nodeType: string, addr: nat, suffix: string)
    requires nodeType != [] && '/' !in nodeType
    ensures RouteOf("/" + nodeType + "/" + NatToString(addr) + "/status" + suffix) == NodeStatus(nodeType, addr)
  {
    var digits, tail := NatToString(addr), "/status" + suffix;
    assert "/" + nodeType + "/" + digits + "/status" + suffix == "/" + nodeType + "/" + digits + tail;
    MatchNodeTopicOf(nodeType, digits, tail);
    DigitsValueOfNatToString(addr);
  }

  /** The status route fires only on a path that starts with
      "/{type}/{digits}/status", the digits spelling the address. */
  lemma StatusRouteSound(path: string)
    requires RouteOf(path).NodeStatus?
    ensures var t, a := RouteOf(path).nodeType, RouteOf(path).addr;
      t != [] && '/' !in t &&
      exists digits, rest :: digits != [] && AllDigits(digits) && DigitsValue(digits) == a &&
        path == "/" + t + "/" + digits + "/status" + rest
  {
    var node := MatchNodeTopic(path).value;
    var rest := node.tail[|"/status"|..];
    assert node.tail == "/status" + rest;
    assert path == "/" + node.nodeType + "/" + node.digits + "/status" + rest;
  }

  /** The vendor's per-node informational topics (programme, setup and
      version) are skipped, not routed. */
  lemma NodeInfoTopicSkipped(nodeType: string, addr: nat, topic: string, suffix: string)
    requires nodeType != [] && '/' !in nodeType
    requires topic in {"/prog", "/setup", "/version"}
    ensures RouteOf("/" + nodeType + "/" + NatToString(addr) + topic + suffix) == Skip
  {
    var digits, tail := NatToString(addr), topic + suffix;
    var path := "/" + nodeType + "/" + digits + tail;
    assert "/" + nodeType + "/" + digits + topic + suffix == path;
    MatchNodeTopicOf(nodeType, digits, tail);
    NodeTopicNotAway(nodeType, digits, tail);
    InfoTopicNotStatus(topic, suffix);
    assert topic <= tail;
    SkipByNodeTopic(path);
  }

  lemma InfoTopicNotStatus(topic: string, suffix: string)
    requires topic in {"/prog", "/setup", "/version"}
    ensures topic <= topic + suffix
    ensures !("/status" <= topic + suffix)
  {
    var tail := topic + suffix;
    assert tail[..|topic|] == topic;
    if topic == "/setup" {
      assert tail[2] == 'e' && "/status"[2] == 't';
    } else {
      assert tail[1] != 's' && "/status"[1] == 's';
    }
  }

  lemma SkipByNodeTopic(path: string)
    requires MatchNodeTopic(path).Some?
    requires !("/status" <= MatchNodeTopic(path).value.tail)
    requires !("/mgr/away_status" <= path)
    requires var tail := MatchNodeTopic(path).value.tail;
      "/prog" <= tail || "/setup" <= tail || "/version" <= tail
    ensures RouteOf(path) == Skip
  {
  }

  /** No node topic starts like the away-status topic: "mgr" would have to
      be followed by digits. */
  lemma NodeTopicNotAway(nodeType: string, digits: string, tail: string)
    requires nodeType != [] && '/' !in nodeType
    requires digits != [] && AllDigits(digits)
    ensures !("/mgr/away_status" <= "/" + nodeType + "/" + digits + tail)
  {
    var path := "/" + nodeType + "/" + digits + tail;
    var away := "/mgr/away_status";
    var n := |nodeType|;
    // an index below |away| where the two differ
    if n < 3 {
      assert path[n + 1] == '/' && away[n + 1] != '/';
    } else if n == 3 {
      assert path[5] == digits[0];
      assert IsDigit(path[5]) && !IsDigit(away[5]);
    } else {
      assert path[4] == nodeType[3] && nodeType[3] != '/' && away[4] == '/';
    }
  }

  /** Away-status topics route to the away handler. */
  lemma AwayTopicRoute(suffix: string)
    ensures RouteOf("/mgr/away_status" + suffix) == AwayStatus
  {
    var path := "/mgr/away_status" + suffix;
    var rest := path[1..];
    assert rest == "mgr" + "/" + ("away_status" + suffix);
    SegmentLengthOf("mgr", "away_status" + suffix);
    assert rest[4..] == "away_status" + suffix;
    assert DigitRunLength(rest[4..]) == 0;
  }

  /** The device-level informational topics are skipped: "/mgr/nodes"
      followed by anything, and "/connected" followed by anything that does
      not itself make a node status path. */
  lemma DeviceInfoTopicsSkipped(suffix: string)
    ensures '/' !in suffix ==> RouteOf("/connected" + suffix) == Skip
    ensures RouteOf("/mgr/nodes" + suffix) == Skip
  {
    ConnectedSkipped(suffix);
    MgrNodesSkipped(suffix);
  }

  lemma ConnectedSkipped(suffix: string)
    ensures '/' !in suffix ==> RouteOf("/connected" + suffix) == Skip
  {
    if '/' !in suffix {
      var path := "/connected" + suffix;
      assert path[1..] == "connected" + suffix;
      assert '/' !in path[1..] by {
        forall i | 0 <= i < |path[1..]|
          ensures path[1..][i] != '/'
        {
          if i >= 9 {
            assert path[1..][i] == suffix[i - 9];
          }
        }
      }
      SegmentLengthAll(path[1..]);
      assert path[..|"/connected"|] == "/connected";
      assert !("/mgr/away_status" <= path) by {
        assert path[1] == 'c';
      }
    }
  }

  lemma MgrNodesSkipped(suffix: string)
    ensures RouteOf("/mgr/nodes" + suffix) == Skip
  {
    var path := "/mgr/nodes" + suffix;
    var rest := path[1..];
    assert rest == "mgr" + "/" + ("nodes" + suffix);
    SegmentLengthOf("mgr", "nodes" + suffix);
    assert rest[4..] == "nodes" + suffix;
    assert DigitRunLength(rest[4..]) == 0;
    assert !("/mgr/away_status" <= path) by {
      assert path[5] == 'n';
    }
  }

  lemma {:induction false} SegmentLengthAll(s: string)
    requires '/' !in s
    ensures SegmentLength(s) == |s|
  {
    if s != [] {
      SegmentLengthAll(s[1..]);
    }
  }
}
