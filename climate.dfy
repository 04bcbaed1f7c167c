/**
  The climate entity of custom_components/smartbox/climate.py: one
  SmartboxHeater per heater node. It keeps its own copy of the node's
  status, refreshed by async_update behind an availability gate, reads
  the climate state out of that copy through the translator, and turns
  Home Assistant commands into node commands.
*/
module Climate {
  import opened Types
  import opened Translator
  import opened Model

  /** The status flag that says a node is heating: "charging" on a storage
      heater, "active" on every other node. */
  function HeatingFlag(kind: NodeKind): string
  {
    if kind == Acm then "charging" else "active"
  }

  /** is_heating: the truth value of the node's heating flag; a status
      without that flag is a KeyError (a storage heater's "active" does not
      count). */
  function IsHeating(kind: NodeKind, status: StatusMap): (r: Result<bool>)
    ensures r.Ok? <==> HeatingFlag(kind) in status
    ensures r.Err? ==> r.error == MissingKey(HeatingFlag(kind))
  {
    if HeatingFlag(kind) in status then Ok(Truthy(status[HeatingFlag(kind)])) else Err(MissingKey(HeatingFlag(kind)))
  }

  /** status_to_hvac_action: HEATING exactly when the heating flag is set,
      IDLE exactly when it is present and unset, never a silent IDLE for a
      missing flag. */
  function StatusToHvacAction(kind: NodeKind, status: StatusMap): (r: Result<HvacAction>)
    ensures r == Ok(Heating) <==> HeatingFlag(kind) in status && Truthy(status[HeatingFlag(kind)])
    ensures r == Ok(Idle) <==> HeatingFlag(kind) in status && !Truthy(status[HeatingFlag(kind)])
    ensures r.Err? <==> HeatingFlag(kind) !in status
    ensures r.Err? ==> r.error == MissingKey(HeatingFlag(kind))
  {
    match IsHeating(kind, status)
    case Err(e) => Err(e)
    case Ok(heating) => if heating then Ok(Heating) else Ok(Idle)
  }

  /** The temperature_unit property: the status's unit, Celsius when it
      names none, an error for a unit other than C or F. */
  function HeaterTemperatureUnit(status: StatusMap): (r: Result<TempUnit>)
    ensures r == Ok(Celsius) <==> "units" !in status || status["units"] == Str("C")
    ensures r == Ok(Fahrenheit) <==> "units" in status && status["units"] == Str("F")
    ensures r.Err? <==> TemperatureUnit(status).Err?
  {
    match TemperatureUnit(status)
    case Err(e) => Err(e)
    case Ok(None) => Ok(Celsius)
    case Ok(Some(unit)) => Ok(unit)
  }

  /** The hvac_modes property: HEAT, AUTO and OFF, each once. */
  function HvacModes(): (r: seq<HvacMode>)
    ensures |r| == 3
    ensures forall m :: m in r <==> m in {Off, Heat, Auto}
  {
    [Heat, Auto, Off]
  }

  /** The advertised modes are exactly the ones the entity can both report
      and command: every decoded mode is advertised, every advertised mode
      is decoded from some status and accepted by the command builder
      (given, for a modulating heater asked to heat, its selected_temp),
      and every other mode is refused. */
  lemma HvacModesAdvertised(kind: NodeKind, status: StatusMap, hvacMode: HvacMode)
    ensures HvacModeOf(kind, status).Ok? ==> HvacModeOf(kind, status).value in HvacModes()
    ensures hvacMode in HvacModes() <==> hvacMode in {Off, Heat, Auto}
    ensures hvacMode in HvacModes() && (kind == HtrMod && hvacMode == Heat ==> "selected_temp" in status) ==>
      SetHvacModeArgs(kind, status, hvacMode).Ok?
    ensures hvacMode !in HvacModes() ==> SetHvacModeArgs(kind, status, hvacMode) == Err(UnsupportedHvacMode(hvacMode))
  {
    SetHvacModeArgsCases(kind, status, hvacMode);
  }

  /** The vendor command a preset other than away or home asks a
      modulating heater for: a manual selection of the comfort, eco or
      frost ("ice") temperature, or one of the automatic modes. */
  function PresetModeStatusUpdate(nodeType: string, status: StatusMap, preset: Preset): (r: Result<StatusMap>)
    ensures r.Err? <==> preset in {Away, Home}
    ensures r.Err? ==> r.error == UnsupportedPreset(preset, nodeType)
    ensures r.Ok? ==> "mode" in r.value
  {
    match preset
    case Comfort => Ok(map["mode" := Str("manual"), "selected_temp" := Str("comfort")])
    case Eco => Ok(map["mode" := Str("manual"), "selected_temp" := Str("eco")])
    case Frost => Ok(map["mode" := Str("manual"), "selected_temp" := Str("ice")])
    case Schedule => Ok(map["mode" := Str("auto")])
    case SelfLearn => Ok(map["mode" := Str("self_learn")])
    case Activity => Ok(map["mode" := Str("presence")])
    case _ => Err(UnsupportedPreset(preset, nodeType))
  }

  /** After a preset command is merged into a switched-on modulating
      heater's status, the translator reads it back: a manual preset shows
      as HEAT with the matching selected temperature, so the target
      temperature follows that selection; schedule, self-learn and activity
      show as AUTO. Under frost, setting any temperature is refused. */
  lemma PresetCommandReadBack(status: StatusMap, preset: Preset, temp: real)
    requires preset !in {Away, Home}
    requires "on" in status && Truthy(status["on"])
    ensures var merged := Merge(status, PresetModeStatusUpdate(HtrModType, status, preset).value);
      (preset in {Comfort, Eco, Frost} ==>
        HvacModeOf(HtrMod, merged) == Ok(Heat) && merged["selected_temp"] in SelectedTemps &&
        (preset == Comfort ==> merged["selected_temp"] == Str("comfort")) &&
        (preset == Eco ==> merged["selected_temp"] == Str("eco")) &&
        (preset == Frost ==>
           merged["selected_temp"] == Str("ice") &&
           SetTemperatureArgs(HtrMod, merged, temp) ==
             (if "units" in merged then Err(IceModeTemperature) else Err(MissingKey("units"))))) &&
      (preset in {Schedule, SelfLearn, Activity} ==> HvacModeOf(HtrMod, merged) == Ok(Auto))
  {
    var merged := Merge(status, PresetModeStatusUpdate(HtrModType, status, preset).value);
    assert merged["on"] == status["on"];
    if preset == Frost {
      assert merged["selected_temp"] == Str("ice");
      SetTemperatureArgsSucceeds(HtrMod, merged, temp);
    }
  }

  /** set_status has run on `node` with `args`, starting from the commands
      `sentBefore` and the status `statusBefore`: the command went out, and
      the node merged it exactly when the call succeeded. */
  ghost predicate Forwarded(node: SmartboxNode, sentBefore: seq<Command>, statusBefore: StatusMap, args: StatusMap, r: Outcome)
    reads node, node.session
  {
    var online := node.session.online;
    node.session.sent ==
      (if online then sentBefore + [SetStatusCommand(node.device.devId, node.info, args)] else sentBefore) &&
    node.status == (if online then Merge(statusBefore, args) else statusBefore) &&
    r == (if online then Pass else Fail(NetworkError))
  }

  /** The commands clearing the device's away status sends: one when the
      node was away, none otherwise. */
  function ClearCommands(devId: string, wasAway: bool): seq<Command>
  {
    if wasAway then [SetAwayCommand(devId, false)] else []
  }

  class SmartboxHeater {
    const node: SmartboxNode
    /** The entity's copy of the node status, as of its last update. */
    var status: StatusMap
    var available: bool

    /** The node belongs to its device's table under its own key. */
    ghost predicate Valid()
      reads this, node.device
    {
      node.device.Valid() && node.Key() in node.device.nodes && node.device.nodes[node.Key()] == node
    }

    /** The availability gate: the entity is available only with a status
        whose sync_status is "ok". */
    ghost predicate Gate()
      reads this
    {
      available ==> "sync_status" in status && status["sync_status"] == Str("ok")
    }

    /** A new entity, made for a node of its device's table, is unavailable
        and has an empty status until its first update. */
    constructor (node: SmartboxNode)
      requires node.device.Valid() && node.Key() in node.device.nodes && node.device.nodes[node.Key()] == node
      ensures this.node == node && status == map[] && !available
      ensures Valid() && Gate()
    {
      this.node := node;
      status := map[];
      available := false;
    }

    function Kind(): NodeKind
    {
      KindOf(node.info.nodeType)
    }

    /** async_update: takes the node's status and the availability from its
        sync_status, keeping the old status when it is not "ok"; a status
        without sync_status is a KeyError and changes nothing. */
    method AsyncUpdate() returns (r: Outcome)
      modifies this`status, this`available
      ensures "sync_status" !in node.status ==>
        r == Fail(MissingKey("sync_status")) && status == old(status) && available == old(available)
      ensures "sync_status" in node.status ==>
        r == Pass &&
        (if node.status["sync_status"] == Str("ok") then status == node.status && available
         else status == old(status) && !available)
      ensures r.Pass? ==> Gate()
      ensures old(Gate()) ==> Gate()
    {
      var newStatus := node.status;
      if "sync_status" !in newStatus {
        r := Fail(MissingKey("sync_status"));
        return;
      }
      if newStatus["sync_status"] == Str("ok") {
        status := newStatus;
        available := true;
      } else {
        available := false;
      }
      r := Pass;
    }

    /** set_temperature: without a temperature nothing happens; otherwise
        the translator's command for this node's status is sent, or its
        error raised before anything is sent. */
    method SetTemperature(temp: Option<real>) returns (r: Outcome)
      modifies node`status, node.session`sent
      ensures temp.None? ==> r == Pass && node.status == old(node.status) && node.session.sent == old(node.session.sent)
      ensures temp.Some? && SetTemperatureArgs(Kind(), status, temp.value).Err? ==>
        r == Fail(SetTemperatureArgs(Kind(), status, temp.value).error) &&
        node.status == old(node.status) && node.session.sent == old(node.session.sent)
      ensures temp.Some? && SetTemperatureArgs(Kind(), status, temp.value).Ok? ==>
        Forwarded(node, old(node.session.sent), old(node.status), SetTemperatureArgs(Kind(), status, temp.value).value, r)
    {
      if temp.None? {
        return Pass;
      }
      var args := SetTemperatureArgs(Kind(), status, temp.value);
      if args.Err? {
        return Fail(args.error);
      }
      var result := node.SetStatus(args.value);
      r := if result.Ok? then Pass else Fail(result.error);
    }

    /** set_hvac_mode: sends the translator's command for the requested
        mode, or raises its error before anything is sent. */
    method SetHvacMode(hvacMode: HvacMode) returns (r: Outcome)
      modifies node`status, node.session`sent
      ensures SetHvacModeArgs(Kind(), status, hvacMode).Err? ==>
        r == Fail(SetHvacModeArgs(Kind(), status, hvacMode).error) &&
        node.status == old(node.status) && node.session.sent == old(node.session.sent)
      ensures SetHvacModeArgs(Kind(), status, hvacMode).Ok? ==>
        Forwarded(node, old(node.session.sent), old(node.status), SetHvacModeArgs(Kind(), status, hvacMode).value, r)
    {
      var args := SetHvacModeArgs(Kind(), status, hvacMode);
      if args.Err? {
        return Fail(args.error);
      }
      var result := node.SetStatus(args.value);
      r := if result.Ok? then Pass else Fail(result.error);
    }

    /** The preset_mode property: AWAY exactly when the node is away. */
    function CurrentPreset(): (p: Preset)
      reads node
      ensures p == Away <==> node.away
      ensures p in PresetModes(Kind())
    {
      PresetMode(Kind(), node.away)
    }

    /** set_preset_mode. AWAY sets the device's away status (at the vendor,
        then on every node) and sends no node command. Any other preset
        first clears the device's away status if this node has it, and a
        failure there ends the call; then a modulating heater is sent the
        preset's command, and any other node refuses every preset but HOME,
        after away has already been cleared. */
    method SetPresetMode(preset: Preset) returns (r: Outcome)
      requires Valid()
      modifies node.device.nodes.Values, node.session`sent
      ensures preset == Away ==>
        r == (if node.session.online then Pass else Fail(NetworkError)) &&
        node.session.sent ==
          (if node.session.online then old(node.session.sent) + [SetAwayCommand(node.device.devId, true)]
           else old(node.session.sent)) &&
        node.device.Aways() == (if node.session.online then (map k | k in node.device.nodes :: true) else old(node.device.Aways())) &&
        node.device.Statuses() == old(node.device.Statuses())
      ensures preset != Away && old(node.away) && !node.session.online ==>
        r == Fail(NetworkError) && node.session.sent == old(node.session.sent) &&
        node.device.Aways() == old(node.device.Aways()) && node.device.Statuses() == old(node.device.Statuses())
      ensures preset != Away && (node.session.online || !old(node.away)) ==>
        node.device.Aways() == if old(node.away) then (map k | k in node.device.nodes :: false) else old(node.device.Aways())
      ensures preset != Away && (node.session.online || !old(node.away)) && Kind() == HtrMod ==>
        var cleared := old(node.session.sent) + ClearCommands(node.device.devId, old(node.away));
        match PresetModeStatusUpdate(node.info.nodeType, status, preset)
        case Err(e) =>
          r == Fail(e) && node.device.Statuses() == old(node.device.Statuses()) && node.session.sent == cleared
        case Ok(update) =>
          Forwarded(node, cleared, old(node.status), update, r) &&
          node.device.Statuses() == old(node.device.Statuses())[node.Key() := node.status]
      ensures preset != Away && (node.session.online || !old(node.away)) && Kind() != HtrMod ==>
        r == (if preset == Home then Pass else Fail(UnsupportedPreset(preset, node.info.nodeType))) &&
        node.device.Statuses() == old(node.device.Statuses()) &&
        node.session.sent == old(node.session.sent) + ClearCommands(node.device.devId, old(node.away))
    {
      if preset == Away {
        r := node.device.UpdateAwayStatus(true);
        return;
      }
      var cleared := ClearAway();
      if cleared.Fail? {
        return cleared;
      }
      if Kind() == HtrMod {
        var update := PresetModeStatusUpdate(node.info.nodeType, status, preset);
        if update.Err? {
          return Fail(update.error);
        }
        r := SendUpdate(update.value);
      } else if preset != Home {
        r := Fail(UnsupportedPreset(preset, node.info.nodeType));
      } else {
        r := Pass;
      }
    }

    /** The first step of every preset but AWAY: the device's away status is
        cleared if this node has it, and nothing else changes. */
    method ClearAway() returns (r: Outcome)
      requires Valid()
      modifies node.device.nodes.Values, node.session`sent
      ensures !old(node.away) ==>
        r == Pass && node.device.Aways() == old(node.device.Aways()) && node.session.sent == old(node.session.sent)
      ensures old(node.away) ==>
        r == (if node.session.online then Pass else Fail(NetworkError)) &&
        node.device.Aways() == (if node.session.online then (map k | k in node.device.nodes :: false) else old(node.device.Aways()))
      ensures node.session.sent ==
        if node.session.online then old(node.session.sent) + ClearCommands(node.device.devId, old(node.away))
        else old(node.session.sent)
      ensures node.device.Statuses() == old(node.device.Statuses())
      ensures node.status == old(node.status)
    {
      r := Pass;
      if node.away {
        r := node.device.UpdateAwayStatus(false);
        assert node.device.Statuses()[node.Key()] == node.status;
      }
    }

    /** node.set_status on this entity's node, seen from the device: only
        this node's status changes. */
    method SendUpdate(args: StatusMap) returns (r: Outcome)
      requires Valid()
      modifies node`status, node.session`sent
      ensures Forwarded(node, old(node.session.sent), old(node.status), args, r)
      ensures node.device.Statuses() == old(node.device.Statuses())[node.Key() := node.status]
      ensures node.device.Aways() == old(node.device.Aways())
    {
      var result := node.SetStatus(args);
      r := if result.Ok? then Pass else Fail(result.error);
    }
  }

  /** A heater entity tracks its node's away flag: after AWAY every node of
      the device, this one included, reports the AWAY preset, and after any
      other preset none does. */
  lemma PresetAfterBroadcast(heater: SmartboxHeater, away: bool)
    requires heater.Valid()
    requires heater.node.device.Aways() == map k | k in heater.node.device.nodes :: away
    ensures heater.CurrentPreset() == (if away then Away else Home)
  {
    var k := heater.node.Key();
    assert heater.node.device.Aways()[k] == heater.node.away;
  }
}
