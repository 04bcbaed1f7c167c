/**
  The vocabulary shared by the whole model: vendor status values and
  dictionaries, the node types, the Home Assistant enumerations the
  integration speaks (HVAC mode, HVAC action, preset, temperature unit),
  and the errors the Python code raises.
*/
module Types {

  /** A value in a vendor status dictionary. Temperatures arrive as decimal
      strings ("17.2"); such a string is represented here by the number it
      denotes, `Num(17.2)`, so `Str` only holds strings that are not numbers
      (enumerations such as "comfort", "manual", "C"). */
  datatype Value = Str(s: string) | Bool(b: bool) | Num(x: real)

  /** A status (or away-status) dictionary: string keys, heterogeneous values. */
  type StatusMap = map<string, Value>

  /** Python truthiness of a status value (`if v`, `not v`). */
  predicate Truthy(v: Value)
  {
    match v
    case Str(s) => s != ""
    case Bool(b) => b
    case Num(x) => x != 0.0
  }

  /** Python's `float(v)`: numbers (and numeric strings, see Value) convert,
      booleans convert to 1.0 / 0.0, any other string raises ValueError. */
  function ToFloat(key: string, v: Value): (r: Result<real>)
    ensures r.Ok? <==> !v.Str?
    ensures v.Num? ==> r == Ok(v.x)
  {
    match v
    case Num(x) => Ok(x)
    case Bool(b) => Ok(if b then 1.0 else 0.0)
    case Str(_) => Err(NotANumber(key))
  }

  /** Python's `status |= args`: every key of `args` takes its new value,
      every other key keeps its old one. */
  function Merge(status: StatusMap, args: StatusMap): (r: StatusMap)
    ensures r.Keys == status.Keys + args.Keys
    ensures forall k :: k in args ==> r[k] == args[k]
    ensures forall k :: k in status && k !in args ==> r[k] == status[k]
  {
    status + args
  }

  /** The node types the translator distinguishes: plain heater "htr",
      storage heater "acm", modulating heater "htr_mod"; anything else
      (a thermostat "thm", say) keeps its name. */
  datatype NodeKind = Htr | Acm | HtrMod | Other(name: string)

  const HtrType: string := "htr"
  const AcmType: string := "acm"
  const HtrModType: string := "htr_mod"

  /** The kind of a node from its vendor type string. */
  function KindOf(nodeType: string): (k: NodeKind)
    ensures k == HtrMod <==> nodeType == HtrModType
    ensures k == Acm <==> nodeType == AcmType
    ensures k == Htr <==> nodeType == HtrType
  {
    if nodeType == HtrType then Htr
    else if nodeType == AcmType then Acm
    else if nodeType == HtrModType then HtrMod
    else Other(nodeType)
  }

  /** Home Assistant's HVAC modes. The integration reads and writes only
      Off, Heat and Auto; the others can still be requested by a caller. */
  datatype HvacMode = Off | Heat | Auto | Cool | HeatCool | Dry | FanOnly

  datatype HvacAction = Heating | Idle

  /** Home Assistant's presets plus the integration's own (frost, schedule,
      self_learn). */
  datatype Preset = Away | Home | Comfort | Eco | Activity | Frost | Schedule | SelfLearn

  datatype TempUnit = Celsius | Fahrenheit

  /** What the Python code raises. MissingKey and UnexpectedSelectedTemp are
      KeyErrors; the rest, except NetworkError (a failed vendor call), are
      ValueErrors. */
  datatype Error =
    | MissingKey(key: string)
    | UnexpectedSelectedTemp(selected: Value)
    | IceModeTemperature
    | UnknownMode(mode: Value)
    | UnsupportedHvacMode(hvacMode: HvacMode)
    | UnknownUnit(unit: Value)
    | NotANumber(key: string)
    | UnsupportedPreset(preset: Preset, nodeType: string)
    | NetworkError

  datatype Result<T> = Ok(value: T) | Err(error: Error)

  datatype Outcome = Pass | Fail(error: Error)

  datatype Option<T> = None | Some(value: T)
}
