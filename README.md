# Smartbox climate integration, modelled in Dafny

This project models the core of the Smartbox Home Assistant integration. The integration drives Haverland/Helki-style electric heaters through the vendor's cloud API.

- **Devices and nodes.** A *device* (a gateway) owns *nodes* (heaters of type `htr`, storage heaters `acm`, modulating heaters `htr_mod`, and others). Each node has a vendor *status* dictionary and an *away* flag.
- **Push messages.** The device receives push messages whose topic *path* decides where the body goes: a node's status, the device-wide away status, or nowhere.
- **Translator.** Pure functions read the Home Assistant climate state out of a status dictionary: temperature unit, target temperature, HVAC mode and preset. Other functions build the command dictionaries that write that state back.
- **Climate entity.** One entity per heater node caches the node status behind an availability gate and turns Home Assistant commands into node commands.
- **Setup.** At start-up, the devices each account returns are filtered against the configured device ids, and the nodes of the kept devices are collected.

Modules:

- `Types` (`types.dfy`): status values, Python truthiness, `float()`, the dictionary merge `|=`, node kinds, the Home Assistant enumerations and the errors raised.
- `Translator` (`translator.dfy`): the translator functions of `model.py`, with their readers and writers paired by round-trip lemmas.
- `TopicPaths` (`topic_paths.dfy`): the three topic regular expressions, applied with `re.match`, and the decimal formatting of node addresses.
- `Model` (`model.py`'s `SmartboxDevice` and `SmartboxNode`, in `model.dfy`): classes whose methods update the node table, statuses and away flags in place. A `Session` class records the commands sent to the vendor.
- `Climate` (`climate.dfy`): `status_to_hvac_action` and the `SmartboxHeater` entity class.
- `Setup` (`setup.dfy`): the account/device loops of `async_setup`.

Modelling conventions:

- A status value is a string, a boolean or a number. A decimal string such as `"17.2"` is represented by the number it denotes, so the translator's `float()` and `str()` of temperatures are exact.
- Session failure is an input (`Session.online`).
- Every Python exception is an `Err`/`Fail` value naming the error. A `KeyError` becomes `MissingKey(key)`.

## Model

| member | source | states |
|---|---|---|
| Types.ToFloat | custom_components/smartbox/model.py:278-293 | `float()` of a status value succeeds exactly for numbers and booleans, and returns the number itself |
| Types.Merge | custom_components/smartbox/model.py:169 | the in-place dictionary merge: the keys are the union; every key of `args` takes its new value; every other key keeps its old one |
| Types.KindOf | custom_components/smartbox/model.py:274 | a node is a modulating, storage or plain heater exactly when its type string is `htr_mod`, `acm` or `htr` |
| Translator.IsHeaterNode | custom_components/smartbox/model.py:187-193 | a node is a heater (and so supported) exactly when its type is one of the three heater kinds |
| Translator.TemperatureUnit | custom_components/smartbox/model.py:196-205 | no unit when `units` is absent; Celsius exactly for `C`; Fahrenheit exactly for `F`; an unknown-unit error exactly otherwise |
| Translator.CheckStatusKey | custom_components/smartbox/model.py:265-270 | passes exactly when the key is present, otherwise a KeyError naming that key |
| Translator.TargetTemperature | custom_components/smartbox/model.py:273-293 | a target temperature is read for `htr_mod` only when `selected_temp` is one of comfort, eco or ice, with `comfort_temp` present unless the selection is ice; for other nodes only when `stemp` is present |
| Translator.TargetTemperatureCases | custom_components/smartbox/model.py:273-293 | `htr_mod` reads `comfort_temp` for comfort, `comfort_temp − eco_offset` for eco and `ice_temp` for ice; any other selection is an error; other nodes read `stemp`; each absent key gives its own KeyError |
| Translator.SetTemperatureArgsSucceeds | custom_components/smartbox/model.py:296-327 | a command is built exactly when `units` is present and, for `htr_mod`, `selected_temp`, `mode` and `eco_offset` are present with a comfort or eco selection; `units` is checked first; ice refuses; other selections are errors |
| Translator.SetTemperatureArgs | custom_components/smartbox/model.py:296-327 | a built command carries the status's `units` unchanged; for `htr_mod` it also switches the heater on and keeps its `selected_temp` |
| Translator.SetTemperatureArgsShape | custom_components/smartbox/model.py:312-327 | the `htr_mod` command always has `on` true and re-sends `mode`, `selected_temp`, `eco_offset` and `units` unchanged; other nodes get `stemp` and `units` only |
| Translator.SetTemperatureRoundTrip | custom_components/smartbox/model.py:273-327 | merging a built set-temperature command into its status makes the target temperature read back as exactly the requested temperature |
| Translator.HvacModeOf | custom_components/smartbox/model.py:330-350 | a decoded HVAC mode is always OFF, HEAT or AUTO |
| Translator.HvacModeDecoding | custom_components/smartbox/model.py:330-350 | `mode=off` gives OFF; `htr_mod` with `on` false gives OFF; `manual` gives HEAT; the four auto modes give AUTO; an unknown mode is an error exactly when nothing earlier decides; a missing `mode` is a KeyError; `htr_mod` with a mode other than `off` and no `on` is a KeyError naming `on` |
| Translator.SetHvacModeArgs | custom_components/smartbox/model.py:353-382 | only OFF, HEAT and AUTO are accepted; the `htr_mod` command switches the heater on exactly when the mode is not OFF; other nodes are sent `mode` alone |
| Translator.SetHvacModeArgsCases | custom_components/smartbox/model.py:353-382 | exactly OFF, HEAT and AUTO are accepted, and `htr_mod` HEAT needs `selected_temp`, which it preserves; `htr_mod` OFF writes only `on: false`; other modes are refused |
| Translator.HvacModeRoundTrip | custom_components/smartbox/model.py:330-382 | merging a built HVAC-mode command into its status makes `get_hvac_mode` return the requested mode |
| Translator.PresetModes | custom_components/smartbox/model.py:391-392 | the advertised presets are AWAY and HOME |
| Translator.PresetMode | custom_components/smartbox/model.py:385-392 | the preset is AWAY exactly when the node is away, and it is always one of the advertised presets |
| TopicPaths.NatToString | tests/test_model.py:189 | an address formats as a non-empty string of decimal digits without a leading zero |
| TopicPaths.DigitsValueOfNatToString | custom_components/smartbox/model.py:102 | `int()` of a formatted address gives the address back |
| TopicPaths.MatchNodeTopic | custom_components/smartbox/model.py:30-33 | a match of `/([^/]+)/(\d+)` splits the path into `/`, a non-empty type without `/`, `/`, the maximal run of digits, and the rest |
| TopicPaths.MatchNodeTopicOf | custom_components/smartbox/model.py:30-33 | every path of that shape is matched, with the parts it was built from as the groups |
| TopicPaths.RouteOf | custom_components/smartbox/model.py:101-116 | a status route names a non-empty type without `/` that the path starts with, between slashes; the away route fires only on a path starting `/mgr/away_status`; an unmatched path starts with none of `/mgr/away_status`, `/connected` and `/mgr/nodes` |
| TopicPaths.StatusTopicRoute | custom_components/smartbox/model.py:101-104 | `/{type}/{addr}/status…` routes to node (type, addr), before any other pattern is tried |
| TopicPaths.StatusRouteSound | custom_components/smartbox/model.py:101-104 | the status route fires only on a path starting `/{type}/{digits}/status` whose digits spell the routed address |
| TopicPaths.AwayTopicRoute | custom_components/smartbox/model.py:106-109 | `/mgr/away_status…` routes to the away handler |
| TopicPaths.NodeTopicNotAway | custom_components/smartbox/model.py:29-30 | no node topic path starts like the away-status topic |
| TopicPaths.NodeInfoTopicSkipped | custom_components/smartbox/model.py:31-33 | `/{type}/{addr}/prog`, `/setup` and `/version` topics are skipped |
| TopicPaths.DeviceInfoTopicsSkipped | custom_components/smartbox/model.py:31-33 | `/connected` followed by anything without `/`, and `/mgr/nodes…`, are skipped |
| TopicPaths.ConnectedSkipped | custom_components/smartbox/model.py:31-32 | `/connected` followed by anything without `/` is skipped |
| TopicPaths.MgrNodesSkipped | custom_components/smartbox/model.py:31-32 | any path starting `/mgr/nodes` is skipped |
| Model.TableContents | custom_components/smartbox/model.py:54-60 | the node table holds exactly the keys of the snapshots, each with the status of the last snapshot carrying it |
| Model.Session.SetStatus | custom_components/smartbox/model.py:167 | a command is recorded exactly when the session is online; otherwise a network error is returned |
| Model.Session.SetAwayStatus | custom_components/smartbox/climate.py:164-168 | the device's away status is sent exactly when the session is online; otherwise a network error is returned |
| Model.SmartboxDevice.constructor | custom_components/smartbox/model.py:37-47 | a new device keeps its id and session, has no node and no push-channel session, and is valid |
| Model.SmartboxDevice.AddNode | custom_components/smartbox/model.py:58-60 | a fresh, not-away node is put under its (type, addr) key, and only that key's status changes |
| Model.SmartboxDevice.InitialiseNodes | custom_components/smartbox/model.py:49-73 | the node table's statuses are exactly the snapshot table; every node is fresh and not away; one push-channel session is opened |
| Model.SmartboxDevice.SetNodesAway | custom_components/smartbox/model.py:81-83 | every node of the device takes the given away flag, and no status changes |
| Model.SmartboxDevice.UpdateAwayStatus | custom_components/smartbox/climate.py:164-168 | the away status goes to the vendor; only when that succeeds does every node take it; statuses never change |
| Model.SmartboxDevice.AwayStatusUpdate | custom_components/smartbox/model.py:79-83 | every node takes the truth value of `away`; a missing `away` is a KeyError exactly when the device has a node, and then nothing changes; statuses never change |
| Model.SmartboxDevice.OnDevData | custom_components/smartbox/model.py:75-77 | a missing `away_status` is a KeyError with no change; otherwise behaves as the away update |
| Model.SmartboxDevice.NodeStatusUpdate | custom_components/smartbox/model.py:85-93 | exactly node (type, addr)'s status is replaced by the body; an unknown node changes nothing; away flags never change |
| Model.SmartboxDevice.OnUpdate | custom_components/smartbox/model.py:95-116 | per route: a status message updates its node, or only reports an unknown node; an away message broadcasts; skipped and unmatched messages change no status and no away flag |
| Model.SmartboxNode.constructor | custom_components/smartbox/model.py:127-138 | a node starts with its given status and not away |
| Model.SmartboxNode.UpdateStatus | custom_components/smartbox/model.py:162-164 | the status is replaced by the new one |
| Model.SmartboxNode.SetStatus | custom_components/smartbox/model.py:166-170 | exactly `args` goes to the session; the merge happens only when the call succeeds; a failed call leaves the status alone |
| Model.SmartboxNode.SetAway | custom_components/smartbox/model.py:176-179 | the away flag takes the new value |
| Model.SmartboxNode.NodeId | custom_components/smartbox/model.py:140-143 | the node id is the device id, a dash, and the address in decimal digits |
| Model.NodeIdByAddress | custom_components/smartbox/model.py:140-143 | two nodes of one device get the same id exactly when their addresses agree, whatever their types |
| Climate.IsHeating | tests/test_climate.py:57-85 | the heating flag (`charging` for `acm`, `active` otherwise) is read; its absence is a KeyError |
| Climate.StatusToHvacAction | custom_components/smartbox/climate.py:66-67 | HEATING exactly when the heating flag is truthy; IDLE exactly when it is present and falsy; a KeyError exactly when it is absent |
| Climate.HeaterTemperatureUnit | custom_components/smartbox/climate.py:103-112 | Celsius for `C` or no unit, Fahrenheit exactly for `F`, an error for any other unit |
| Climate.HvacModes | custom_components/smartbox/climate.py:143-147 | the advertised modes are HEAT, AUTO and OFF, each once |
| Climate.HvacModesAdvertised | custom_components/smartbox/climate.py:143-147 | the advertised modes are exactly OFF, HEAT and AUTO: every decoded mode is advertised, every advertised one can be commanded, every other is refused |
| Climate.PresetModeStatusUpdate | tests/test_climate.py:330-513 | a command exists for every preset but AWAY and HOME, and always sets `mode` |
| Climate.PresetCommandReadBack | tests/test_climate.py:330-513 | after the command, a switched-on `htr_mod` reads back as HEAT with the matching selection for comfort, eco and frost, refusing every temperature change in frost with the ice-mode error (or the missing-`units` KeyError); and as AUTO for schedule, self-learn and activity |
| Climate.SmartboxHeater.constructor | custom_components/smartbox/climate.py:73-77 | a new entity for a node of its device's table is unavailable with an empty status, and valid |
| Climate.SmartboxHeater.AsyncUpdate | custom_components/smartbox/climate.py:191-198 | the status is replaced and the entity made available exactly when `sync_status` is `ok`; otherwise it becomes unavailable and keeps its status; a missing `sync_status` is a KeyError; the gate invariant is kept |
| Climate.SmartboxHeater.SetTemperature | custom_components/smartbox/climate.py:124-129 | without a temperature, nothing happens; otherwise exactly the translator's command is forwarded, or its error is raised before anything is sent |
| Climate.SmartboxHeater.SetHvacMode | custom_components/smartbox/climate.py:149-153 | exactly the translator's command is forwarded, or its error is raised before anything is sent |
| Climate.SmartboxHeater.CurrentPreset | custom_components/smartbox/climate.py:155-157 | the preset is AWAY exactly when the node is away, and always an advertised one |
| Climate.SmartboxHeater.SetPresetMode | custom_components/smartbox/climate.py:163-177 | AWAY sends the device's away status and, when that succeeds, makes every node away; any other preset first clears away if set, stopping on failure; `htr_mod` then forwards the preset command; other nodes refuse all presets but HOME, after away has already been cleared |
| Climate.SmartboxHeater.ClearAway | custom_components/smartbox/climate.py:167-168 | when this node was away, a clearing away status is sent and, on success, every node's away flag is cleared; otherwise nothing happens; no status changes |
| Climate.SmartboxHeater.SendUpdate | custom_components/smartbox/climate.py:174 | only this node's status changes on the device, merged exactly when the session call succeeds |
| Climate.PresetAfterBroadcast | custom_components/smartbox/climate.py:155-157 | after a device-wide away broadcast, the entity's preset is AWAY exactly when the broadcast value is true |
| Setup.AsyncSetup | custom_components/smartbox/__init__.py:63-107 | kept devices, collected nodes, unsupported types, and per-account unconfigured and missing ids are each exactly their reference definition; platforms load exactly when a device was kept |
| Setup.FilterAccounts | custom_components/smartbox/__init__.py:66-90 | the account loop yields the kept devices, and each account's unconfigured and missing ids |
| Setup.KeepConfigured | custom_components/smartbox/__init__.py:81-84 | the devices kept from an account are the configured ones, in the order returned |
| Setup.CollectNodes | custom_components/smartbox/__init__.py:92-101 | the node list is the concatenation of the kept devices' nodes, and the logged types are those of its unsupported nodes |
| Setup.UnsupportedOf | custom_components/smartbox/__init__.py:95-100 | the types of one device's unsupported nodes are appended to what was logged before |
| Setup.ConfiguredMembers | custom_components/smartbox/__init__.py:81-84 | a device is kept from an account exactly when it was returned for it and its id is configured there |
| Setup.KeptDevicesMembers | custom_components/smartbox/__init__.py:66-84 | the kept devices are exactly the configured devices across all accounts |
| Setup.ConfiguredOrder | custom_components/smartbox/__init__.py:81-84 | an account keeps at most what it returned, and all of it when every returned id is configured |
| Setup.MissingOnlyWhenNotFound | custom_components/smartbox/__init__.py:86-90 | an account whose configured ids were all found reports none missing |
| Setup.UnconfiguredNotKept | custom_components/smartbox/__init__.py:75-84 | a found id that is not configured is never kept from that account |
| Setup.NodesOfMembers | custom_components/smartbox/__init__.py:92-101 | every node of every kept device is collected, supported or not, and nothing else |
| Setup.UnsupportedTypesMembers | custom_components/smartbox/__init__.py:95-100 | the logged types are exactly the non-heater types among the collected nodes |

## Left out

- The vendor SDK and asyncio plumbing: `get_devices`, `create_smartbox_device`, the executor calls, the `SocketSession` and its task. `InitialiseNodes` takes the vendor's (node, status) snapshots as input and only counts the push-channel sessions it opens.
- The Home Assistant framework: entity registration, `hass.data`, configuration schemas, config-entry stubs, unique ids, names, `current_temperature`, the `locked` attribute, and all log message text. Log lines are modelled only as the values they report.
- sensor.py, switch.py, number.py and config_flow.py are not part of this model.
- Floating-point parsing and `str()` formatting of temperatures: numeric strings are represented by their numbers, so formatting and parsing back is the identity and IEEE rounding is not modelled.
- TopicPaths.MatchNodeTopic: `\d` is modelled as the ASCII digits only, whereas Python's `\d` also matches other Unicode decimal digits.
- Model.SmartboxDevice.OnUpdate: a message without `path` or `body` keys, a KeyError in the source, is not modelled, because a message is a pair of a path and a body.
- Translator.CheckStatusKey: the node type argument appears only in the error message and is omitted.
- Model.SmartboxNode.SetAway: the away flag is stored as the truth value of the vendor's `away` entry, not as the raw value.
- Climate.SmartboxHeater.AsyncUpdate: the entity keeps a copy of the node's status as a value. In Python the entity and the node share one dictionary after an update, so a later `set_status` merge is visible through both; here it is visible only in the node.
- Climate.IsHeating, Climate.PresetModeStatusUpdate: `is_heating` and `set_preset_mode_status_update` are called by climate.py but defined nowhere in the code modelled. They are given the behaviour the tests assert:
  - The heating flag is `active` for every node but `acm`.
  - The preset commands write `mode` (and `selected_temp` for manual presets).
  - AWAY and HOME have no `htr_mod` command and give `UnsupportedPreset`.
  Any further behaviour of the real definitions is not captured.
- Model.SmartboxDevice.UpdateAwayStatus, Climate.SmartboxHeater.SetPresetMode, Climate.SmartboxHeater.ClearAway: `update_device_away_status` is called by climate.py but defined nowhere in the code modelled. It is modelled as one vendor away-status call, which fails when the session is offline, followed on success by the local broadcast to every node of the device. Whatever else the real definition does is not captured.
- Types.KindOf, Translator.IsHeaterNode: the node-type strings `htr`, `acm` and `htr_mod` and the heater set `HEATER_NODE_TYPES` are not defined in the code modelled (const.py does not define them). Their values are inferred from the tests.
- Types.Truthy: a numeric string is represented by its number, so its truth value is that of the number. Python treats every non-empty string as true, so a vendor `"0"` is true there but false here. This affects the readings of `on`, `away`, `active` and `charging` when the vendor sends them as numeric strings.
- Climate.SmartboxHeater.CurrentPreset: climate.py calls `get_preset_mode` with a third argument, but model.py defines it with two and reads only the away flag. The model follows model.py.
- Setup.AsyncSetup: the vendor credentials and API name of each account are not modelled; each account carries the devices the vendor returns for it.
- `get_nodes` and `dev_id` are plain accessors: the `nodes` and `devId` fields.
