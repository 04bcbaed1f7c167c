/**
  The status translator of custom_components/smartbox/model.py: pure
  functions that read the normalized climate state (temperature unit,
  target temperature, HVAC mode, preset) out of a vendor status dictionary,
  and build the command dictionaries that write it back. Readers and
  writers are paired by round-trip lemmas: merging a command into the
  status it was built from and reading the status again gives back what
  was asked for.
*/
module Translator {
  import opened Types

  /** The vendor node types the integration treats as heaters. */
  const HeaterNodeTypes: set<string> := {HtrType, AcmType, HtrModType}

  /** is_heater_node (and is_supported_node, which only calls it): a node
      is a heater exactly when its type is one of the three heater kinds. */
  predicate IsHeaterNode(nodeType: string)
    ensures IsHeaterNode(nodeType) <==> !KindOf(nodeType).Other?
  {
    nodeType in HeaterNodeTypes
  }

  /** get_temperature_unit: no unit when "units" is absent, Celsius for "C",
      Fahrenheit for "F", and a ValueError for anything else. */
  function TemperatureUnit(status: StatusMap): (r: Result<Option<TempUnit>>)
    ensures "units" !in status ==> r == Ok(None)
    ensures r == Ok(Some(Celsius)) <==> "units" in status && status["units"] == Str("C")
    ensures r == Ok(Some(Fahrenheit)) <==> "units" in status && status["units"] == Str("F")
    ensures r.Err? <==> "units" in status && status["units"] != Str("C") && status["units"] != Str("F")
    ensures r.Err? ==> r.error == UnknownUnit(status["units"])
  {
    if "units" !in status then Ok(None)
    else if status["units"] == Str("C") then Ok(Some(Celsius))
    else if status["units"] == Str("F") then Ok(Some(Fahrenheit))
    else Err(UnknownUnit(status["units"]))
  }

  /** _check_status_key: a KeyError naming the key when it is absent. */
  function CheckStatusKey(key: string, status: StatusMap): (r: Outcome)
    ensures r == Pass <==> key in status
    ensures r.Fail? ==> r.error == MissingKey(key)
  {
    if key in status then Pass else Fail(MissingKey(key))
  }

  /** The values `selected_temp` may take on a modulating heater. */
  const SelectedTemps: set<Value> := {Str("comfort"), Str("eco"), Str("ice")}

  /** get_target_temperature. A temperature is read only from a status
      that holds the key it comes from: for a modulating heater a known
      selection, for any other node "stemp". */
  function TargetTemperature(kind: NodeKind, status: StatusMap): (r: Result<real>)
    ensures r.Ok? && kind == HtrMod ==> "selected_temp" in status && status["selected_temp"] in SelectedTemps
    ensures r.Ok? && kind == HtrMod && status["selected_temp"] != Str("ice") ==> "comfort_temp" in status
    ensures r.Ok? && kind != HtrMod ==> "stemp" in status
  {
    if kind == HtrMod then
      if CheckStatusKey("selected_temp", status).Fail? then Err(MissingKey("selected_temp"))
      else if status["selected_temp"] == Str("comfort") then
        if CheckStatusKey("comfort_temp", status).Fail? then Err(MissingKey("comfort_temp"))
        else ToFloat("comfort_temp", status["comfort_temp"])
      else if status["selected_temp"] == Str("eco") then
        if CheckStatusKey("comfort_temp", status).Fail? then Err(MissingKey("comfort_temp"))
        else if CheckStatusKey("eco_offset", status).Fail? then Err(MissingKey("eco_offset"))
        else
          match ToFloat("comfort_temp", status["comfort_temp"])
          case Err(e) => Err(e)
          case Ok(comfort) =>
            match ToFloat("eco_offset", status["eco_offset"])
            case Err(e) => Err(e)
            case Ok(offset) => Ok(comfort - offset)
      else if status["selected_temp"] == Str("ice") then
        if CheckStatusKey("ice_temp", status).Fail? then Err(MissingKey("ice_temp"))
        else ToFloat("ice_temp", status["ice_temp"])
      else
        Err(UnexpectedSelectedTemp(status["selected_temp"]))
    else
      if CheckStatusKey("stemp", status).Fail? then Err(MissingKey("stemp"))
      else ToFloat("stemp", status["stemp"])
  }

  /** How each node type's target temperature is read, and the KeyError
      each absent key gives. */
  lemma TargetTemperatureCases(kind: NodeKind, status: StatusMap)
    ensures kind != HtrMod ==>
      TargetTemperature(kind, status) ==
        if "stemp" in status then ToFloat("stemp", status["stemp"]) else Err(MissingKey("stemp"))
    ensures kind == HtrMod && "selected_temp" !in status ==>
      TargetTemperature(kind, status) == Err(MissingKey("selected_temp"))
    ensures kind == HtrMod && "selected_temp" in status && status["selected_temp"] !in SelectedTemps ==>
      TargetTemperature(kind, status) == Err(UnexpectedSelectedTemp(status["selected_temp"]))
    ensures kind == HtrMod && "selected_temp" in status && status["selected_temp"] in {Str("comfort"), Str("eco")}
            && "comfort_temp" !in status ==>
      TargetTemperature(kind, status) == Err(MissingKey("comfort_temp"))
    ensures kind == HtrMod && "selected_temp" in status && status["selected_temp"] == Str("eco")
            && "comfort_temp" in status && "eco_offset" !in status ==>
      TargetTemperature(kind, status) == Err(MissingKey("eco_offset"))
    ensures kind == HtrMod && "selected_temp" in status && status["selected_temp"] == Str("ice")
            && "ice_temp" !in status ==>
      TargetTemperature(kind, status) == Err(MissingKey("ice_temp"))
    ensures kind == HtrMod && "selected_temp" in status && status["selected_temp"] == Str("comfort")
            && "comfort_temp" in status && status["comfort_temp"].Num? ==>
      TargetTemperature(kind, status) == Ok(status["comfort_temp"].x)
    ensures kind == HtrMod && "selected_temp" in status && status["selected_temp"] == Str("eco")
            && "comfort_temp" in status && status["comfort_temp"].Num?
            && "eco_offset" in status && status["eco_offset"].Num? ==>
      TargetTemperature(kind, status) == Ok(status["comfort_temp"].x - status["eco_offset"].x)
    ensures kind == HtrMod && "selected_temp" in status && status["selected_temp"] == Str("ice")
            && "ice_temp" in status && status["ice_temp"].Num? ==>
      TargetTemperature(kind, status) == Ok(status["ice_temp"].x)
  {
  }

  /** set_temperature_args. The target is written back as a number (the
      Python code formats it with str(); see Value). */
  function SetTemperatureArgs(kind: NodeKind, status: StatusMap, temp: real): (r: Result<StatusMap>)
    ensures r.Ok? ==> "units" in status && "units" in r.value && r.value["units"] == status["units"]
    ensures r.Ok? && kind == HtrMod ==>
      "on" in r.value && r.value["on"] == Bool(true) &&
      "selected_temp" in status && "selected_temp" in r.value && r.value["selected_temp"] == status["selected_temp"]
  {
    if CheckStatusKey("units", status).Fail? then Err(MissingKey("units"))
    else if kind == HtrMod then
      if "selected_temp" !in status then Err(MissingKey("selected_temp"))
      else
        var selected := status["selected_temp"];
        var target: Result<real> :=
          if selected == Str("comfort") then Ok(temp)
          else if selected == Str("eco") then
            if CheckStatusKey("eco_offset", status).Fail? then Err(MissingKey("eco_offset"))
            else match ToFloat("eco_offset", status["eco_offset"])
              case Err(e) => Err(e)
              case Ok(offset) => Ok(temp + offset)
          else if selected == Str("ice") then Err(IceModeTemperature)
          else Err(UnexpectedSelectedTemp(selected));
        if target.Err? then Err(target.error)
        else if "mode" !in status then Err(MissingKey("mode"))
        else if "eco_offset" !in status then Err(MissingKey("eco_offset"))
        else Ok(map[
          "on" := Bool(true),
          "mode" := status["mode"],
          "selected_temp" := selected,
          "comfort_temp" := Num(target.value),
          "eco_offset" := status["eco_offset"],
          "units" := status["units"]])
    else
      Ok(map["stemp" := Num(temp), "units" := status["units"]])
  }

  /** When a set-temperature command can be built, and the errors it gives
      otherwise: units are checked first; a modulating heater needs a
      comfort or eco selection with mode and eco_offset present (a numeric
      offset in eco); in ice mode it refuses. */
  lemma SetTemperatureArgsSucceeds(kind: NodeKind, status: StatusMap, temp: real)
    ensures SetTemperatureArgs(kind, status, temp).Ok? <==>
      "units" in status &&
      (kind == HtrMod ==>
        "selected_temp" in status && "mode" in status && "eco_offset" in status &&
        (status["selected_temp"] == Str("comfort") ||
         (status["selected_temp"] == Str("eco") && !status["eco_offset"].Str?)))
    ensures "units" !in status ==> SetTemperatureArgs(kind, status, temp) == Err(MissingKey("units"))
    ensures kind == HtrMod && "units" in status && "selected_temp" in status && status["selected_temp"] == Str("ice") ==>
      SetTemperatureArgs(kind, status, temp) == Err(IceModeTemperature)
    ensures kind == HtrMod && "units" in status && "selected_temp" in status && status["selected_temp"] !in SelectedTemps ==>
      SetTemperatureArgs(kind, status, temp) == Err(UnexpectedSelectedTemp(status["selected_temp"]))
  {
  }

  /** The command for a modulating heater always switches it on and
      re-sends mode, selected_temp, eco_offset and units unchanged; for
      other nodes it writes stemp and units only. */
  lemma SetTemperatureArgsShape(kind: NodeKind, status: StatusMap, temp: real)
    requires SetTemperatureArgs(kind, status, temp).Ok?
    ensures var args := SetTemperatureArgs(kind, status, temp).value;
      if kind == HtrMod then
        args.Keys == {"on", "mode", "selected_temp", "comfort_temp", "eco_offset", "units"} &&
        args["on"] == Bool(true) &&
        (forall k :: k in {"mode", "selected_temp", "eco_offset", "units"} ==> args[k] == status[k])
      else
        args.Keys == {"stemp", "units"} && args["stemp"] == Num(temp) && args["units"] == status["units"]
  {
  }

  /** Round trip: whenever a set-temperature command is built, merging it
      into the status it was built from makes the target temperature read
      back as exactly the requested one. */
  lemma SetTemperatureRoundTrip(kind: NodeKind, status: StatusMap, temp: real)
    requires SetTemperatureArgs(kind, status, temp).Ok?
    ensures TargetTemperature(kind, Merge(status, SetTemperatureArgs(kind, status, temp).value)) == Ok(temp)
  {
    var args := SetTemperatureArgs(kind, status, temp).value;
    var merged := Merge(status, args);
    if kind == HtrMod && status["selected_temp"] == Str("eco") {
      var offset := ToFloat("eco_offset", status["eco_offset"]).value;
      assert merged["comfort_temp"] == Num(temp + offset);
      assert merged["eco_offset"] == status["eco_offset"];
    }
  }

  /** The vendor modes get_hvac_mode reads as AUTO. */
  const AutoModes: set<Value> := {Str("auto"), Str("modified_auto"), Str("self_learn"), Str("presence")}

  /** get_hvac_mode. */
  function HvacModeOf(kind: NodeKind, status: StatusMap): (r: Result<HvacMode>)
    ensures r.Ok? ==> r.value in {Off, Heat, Auto}
  {
    if CheckStatusKey("mode", status).Fail? then Err(MissingKey("mode"))
    else
      var mode := status["mode"];
      if mode == Str("off") then Ok(Off)
      else if kind == HtrMod && "on" !in status then Err(MissingKey("on"))
      else if kind == HtrMod && !Truthy(status["on"]) then Ok(Off)
      else if mode == Str("manual") then Ok(Heat)
      else if mode in AutoModes then Ok(Auto)
      else Err(UnknownMode(mode))
  }

  /** Decoding is total over the known vendor modes, and an unknown mode is
      an error exactly when nothing else (mode "off", or a modulating
      heater switched off) already decides the answer. */
  lemma HvacModeDecoding(kind: NodeKind, status: StatusMap)
    ensures "mode" !in status ==> HvacModeOf(kind, status) == Err(MissingKey("mode"))
    ensures "mode" in status && status["mode"] == Str("off") ==> HvacModeOf(kind, status) == Ok(Off)
    ensures "mode" in status && kind == HtrMod && "on" in status && !Truthy(status["on"]) ==>
      HvacModeOf(kind, status) == Ok(Off)
    ensures kind == HtrMod && "mode" in status && status["mode"] != Str("off") && "on" !in status ==>
      HvacModeOf(kind, status) == Err(MissingKey("on"))
    ensures "mode" in status && (kind == HtrMod ==> "on" in status && Truthy(status["on"])) ==>
      (status["mode"] == Str("manual") ==> HvacModeOf(kind, status) == Ok(Heat)) &&
      (status["mode"] in AutoModes ==> HvacModeOf(kind, status) == Ok(Auto))
    ensures HvacModeOf(kind, status).Err? && HvacModeOf(kind, status).error.UnknownMode? <==>
      "mode" in status && status["mode"] != Str("off") && status["mode"] != Str("manual") &&
      status["mode"] !in AutoModes && (kind == HtrMod ==> "on" in status && Truthy(status["on"]))
  {
  }

  /** set_hvac_mode_args. */
  function SetHvacModeArgs(kind: NodeKind, status: StatusMap, hvacMode: HvacMode): (r: Result<StatusMap>)
    ensures r.Ok? ==> hvacMode in {Off, Heat, Auto}
    ensures r.Ok? && kind == HtrMod ==> "on" in r.value && (r.value["on"] == Bool(true) <==> hvacMode != Off)
    ensures r.Ok? && kind != HtrMod ==> r.value.Keys == {"mode"}
  {
    if kind == HtrMod then
      match hvacMode
      case Off => Ok(map["on" := Bool(false)])
      case Heat =>
        if CheckStatusKey("selected_temp", status).Fail? then Err(MissingKey("selected_temp"))
        else Ok(map["selected_temp" := status["selected_temp"], "on" := Bool(true), "mode" := Str("manual")])
      case Auto => Ok(map["on" := Bool(true), "mode" := Str("auto")])
      case _ => Err(UnsupportedHvacMode(hvacMode))
    else
      match hvacMode
      case Off => Ok(map["mode" := Str("off")])
      case Heat => Ok(map["mode" := Str("manual")])
      case Auto => Ok(map["mode" := Str("auto")])
      case _ => Err(UnsupportedHvacMode(hvacMode))
  }

  /** The command builder accepts exactly OFF, HEAT and AUTO, and for a
      modulating heater HEAT additionally needs selected_temp. Powering a
      modulating heater off leaves its mode alone; HEAT preserves its
      selected temperature. */
  lemma SetHvacModeArgsCases(kind: NodeKind, status: StatusMap, hvacMode: HvacMode)
    ensures SetHvacModeArgs(kind, status, hvacMode).Ok? <==>
      hvacMode in {Off, Heat, Auto} && (kind == HtrMod && hvacMode == Heat ==> "selected_temp" in status)
    ensures hvacMode !in {Off, Heat, Auto} ==>
      SetHvacModeArgs(kind, status, hvacMode) == Err(UnsupportedHvacMode(hvacMode))
    ensures kind == HtrMod && hvacMode == Heat && "selected_temp" !in status ==>
      SetHvacModeArgs(kind, status, hvacMode) == Err(MissingKey("selected_temp"))
    ensures kind == HtrMod && hvacMode == Off ==>
      SetHvacModeArgs(kind, status, hvacMode) == Ok(map["on" := Bool(false)])
    ensures kind == HtrMod && hvacMode == Heat && "selected_temp" in status ==>
      SetHvacModeArgs(kind, status, hvacMode).value["selected_temp"] == status["selected_temp"]
  {
  }

  /** Round trip: for OFF, HEAT and AUTO, merging the command into the
      status it was built from makes get_hvac_mode return the requested
      mode. The one exception is a modulating heater powered off: its
      command leaves "mode" alone, so the status must already hold one. */
  lemma HvacModeRoundTrip(kind: NodeKind, status: StatusMap, hvacMode: HvacMode)
    requires SetHvacModeArgs(kind, status, hvacMode).Ok?
    requires kind == HtrMod && hvacMode == Off ==> "mode" in status
    ensures HvacModeOf(kind, Merge(status, SetHvacModeArgs(kind, status, hvacMode).value)) == Ok(hvacMode)
  {
  }

  /** get_preset_mode: away wins whatever the node type; otherwise home. */
  function PresetMode(kind: NodeKind, away: bool): (r: Preset)
    ensures r == Away <==> away
    ensures r in PresetModes(kind)
  {
    if away then Away else Home
  }

  /** get_preset_modes. */
  function PresetModes(kind: NodeKind): (r: seq<Preset>)
    ensures |r| == 2 && Away in r && Home in r
  {
    [Away, Home]
  }
}
