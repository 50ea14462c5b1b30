/**
 * The records exchanged with the smart-home cloud API (types.ts).
 *
 * TypeScript's optional fields (`x?: T`) are `Option<T>`; the union
 * `boolean | number | string` of a state value is the datatype `Value`; a field named
 * `type` is called `kind` here, because `type` is a Dafny keyword. Capability
 * parameters are declared `unknown` in the source and read through `as any`; they are
 * modelled as a record of the optional fields the components actually read.
 */
module Types {
  import Text

  datatype Option<T> = None | Some(value: T) {
    function GetOr(default: T): T {
      match this
      case Some(v) => v
      case None => default
    }
  }

  /** JavaScript truthiness of an optional string (`if (s)`): present and non-empty. */
  predicate Truthy(s: Option<string>) {
    s.Some? && s.value != ""
  }

  /** A state value: exactly one of boolean, number (integers here) or string. */
  datatype Value = BoolV(b: bool) | NumV(n: int) | StrV(s: string)

  /** JavaScript truthiness of a state value (`NaN` is not modelled). */
  predicate ValueTruthy(v: Value) {
    match v
    case BoolV(b) => b
    case NumV(n) => n != 0
    case StrV(s) => s != ""
  }

  /** `String(value)`. */
  function ValueText(v: Value): string {
    match v
    case BoolV(b) => if b then "true" else "false"
    case NumV(n) => Text.IntText(n)
    case StrV(s) => s
  }

  datatype CapabilityState = CapabilityState(instance: string, value: Value)

  /** `parameters.range` of a `range` capability. */
  datatype Range = Range(min: int, max: int, precision: int)

  /** `parameters.temperature_k` of a `color_setting` capability; precision may be absent. */
  datatype ColorTemperatureRange = ColorTemperatureRange(min: int, max: int, precision: Option<int>)

  /** One entry of `parameters.modes` of a `mode` capability. */
  datatype ModeOption = ModeOption(value: string, name: string)

  /** The fields of a capability's untyped `parameters` that the components read.
      `modes` is `None` when `parameters.modes` is not an array. */
  datatype CapabilityParameters = CapabilityParameters(
    instance: Option<string>,
    range: Option<Range>,
    colorModel: Option<string>,
    temperatureK: Option<ColorTemperatureRange>,
    modes: Option<seq<ModeOption>>)

  datatype Capability = Capability(
    kind: string,
    retrievable: bool,
    reportable: bool,
    state: Option<CapabilityState>,
    parameters: Option<CapabilityParameters>)

  datatype PropertyState = PropertyState(instance: string, value: Value, unit: Option<string>)

  datatype PropertyParameters = PropertyParameters(instance: string, unit: Option<string>)

  datatype Property = Property(
    kind: string,
    retrievable: bool,
    reportable: bool,
    parameters: Option<PropertyParameters>,
    state: Option<PropertyState>)

  /** A device always has a capability list; its room and property list are optional. */
  datatype Device = Device(
    id: string,
    name: string,
    kind: string,
    externalId: Option<string>,
    skillId: Option<string>,
    room: Option<string>,
    groups: Option<seq<string>>,
    capabilities: seq<Capability>,
    properties: Option<seq<Property>>)

  /** A room belongs to exactly one household and lists the ids of its devices. */
  datatype Room = Room(id: string, name: string, householdId: string, devices: seq<string>)

  datatype Household = Household(id: string, name: string)

  datatype Scenario = Scenario(id: string, name: string, isActive: bool, icon: Option<string>)

  /** A device group as the group components read it: its member ids and its own
      capabilities (types.ts declares the response's `groups` only as `unknown[]`). */
  datatype Group = Group(id: string, name: string, devices: seq<string>, capabilities: seq<Capability>)

  datatype UserInfo = UserInfo(
    status: string,
    requestId: string,
    rooms: seq<Room>,
    groups: seq<Group>,
    devices: seq<Device>,
    scenarios: seq<Scenario>,
    households: seq<Household>)

  /** The screens of the application: exactly these four. */
  datatype AppState = AUTH | LOADING | DASHBOARD | ERROR

  datatype TrayItemType = DeviceItem | ScenarioItem

  /** A favourite mirrored into the tray; `isToggleable` and `isOn` only for devices.
      `sensorValue` is not declared in types.ts, but the tray menu reads it. */
  datatype TrayMenuItem = TrayMenuItem(
    id: string,
    name: string,
    itemType: TrayItemType,
    isToggleable: Option<bool>,
    isOn: Option<bool>,
    sensorValue: Option<string>)

  // Capability and property type tags the components test for.
  const ON_OFF := "devices.capabilities.on_off"
  const RANGE := "devices.capabilities.range"
  const MODE := "devices.capabilities.mode"
  const TOGGLE := "devices.capabilities.toggle"
  const COLOR_SETTING := "devices.capabilities.color_setting"
  const PROPERTIES_PREFIX := "devices.properties"

  /** The `mode` instance of a fan speed, shared by the climate and fan settings. */
  const FAN_SPEED := "fan_speed"
}
