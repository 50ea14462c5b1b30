/**
 * The light settings of a device group (GroupLightSettingsModal.tsx): the capabilities of
 * the group's first device, the initial slider values, and the settings record that
 * "apply" sends, holding a brightness, and either a colour or a colour temperature.
 */
module GroupLight {
  import opened Types
  import opened Lookup

  /** The first device of the group that the device list holds, in device-list order:
      `groupDevices[0]`, which is the first device that `find` would return. */
  function FirstGroupDevice(group: Group, devices: seq<Device>): (r: Option<Device>)
    ensures r == Find(devices, (d: Device) => d.id in group.devices)
  {
    var groupDevices := DevicesWithIds(group.devices, devices);
    FilterHeadIsFind(devices, (d: Device) => d.id in group.devices);
    if |groupDevices| > 0 then Some(groupDevices[0]) else None
  }

  /** The capabilities the modal reads: those of the first device, or none. */
  function FirstDeviceCapabilities(group: Group, devices: seq<Device>): seq<Capability> {
    var first := FirstGroupDevice(group, devices);
    if first.Some? then first.value.capabilities else []
  }

  /** Two device lists whose first group member is the same open the dialog with the
      same brightness and temperature, and "apply" sees the same colour capability:
      every other member is ignored. */
  lemma OnlyFirstDeviceCounts(group: Group, a: seq<Device>, b: seq<Device>)
    requires FirstGroupDevice(group, a) == FirstGroupDevice(group, b)
    ensures BrightnessStart(FirstDeviceCapabilities(group, a)) == BrightnessStart(FirstDeviceCapabilities(group, b))
    ensures TemperatureStart(FirstDeviceCapabilities(group, a)) == TemperatureStart(FirstDeviceCapabilities(group, b))
    ensures ColorModelCapability(FirstDeviceCapabilities(group, a), "hsv").Some?
         == ColorModelCapability(FirstDeviceCapabilities(group, b), "hsv").Some?
  {
  }

  predicate IsColorModel(c: Capability, model: string) {
    c.kind == COLOR_SETTING && c.parameters.Some? && c.parameters.value.colorModel == Some(model)
  }

  /** `caps.find(...)` for a `color_setting` capability with colour model `model`: the
      first one in list order (the modal looks up `hsv` and `rgb`). */
  function ColorModelCapability(caps: seq<Capability>, model: string): (r: Option<Capability>)
    ensures r.Some? ==> r.value in caps && IsColorModel(r.value, model)
    ensures r.Some? ==>
      exists i :: 0 <= i < |caps| && caps[i] == r.value && forall j :: 0 <= j < i ==> !IsColorModel(caps[j], model)
    ensures r.None? <==> forall c :: c in caps ==> !IsColorModel(c, model)
  {
    Find(caps, (c: Capability) => IsColorModel(c, model))
  }

  predicate HasTemperatureK(c: Capability) {
    c.kind == COLOR_SETTING && c.parameters.Some? && c.parameters.value.temperatureK.Some?
  }

  /** The first `color_setting` capability in list order with a `temperature_k` range. */
  function TemperatureCapability(caps: seq<Capability>): (r: Option<Capability>)
    ensures r.Some? ==> r.value in caps && HasTemperatureK(r.value)
    ensures r.Some? ==>
      exists i :: 0 <= i < |caps| && caps[i] == r.value && forall j :: 0 <= j < i ==> !HasTemperatureK(caps[j])
    ensures r.None? <==> forall c :: c in caps ==> !HasTemperatureK(c)
  {
    Find(caps, HasTemperatureK)
  }

  /** `Math.round((min + max) / 2)`: the integer nearest the middle, halves rounded up. */
  function Midpoint(min: int, max: int): (r: int)
    ensures 2 * r == min + max || 2 * r == min + max + 1
    ensures min <= max ==> min <= r <= max
  {
    (min + max + 1) / 2
  }

  /** `temperatureKRange.min + temperatureKRange.max - temperature_k`: the slider runs from
      cold to warm, the opposite of the Kelvin scale. It is its own inverse and maps the
      range onto itself. */
  function Invert(range: Range, value: int): (r: int)
    ensures range.min + range.max - r == value
    ensures range.min <= value <= range.max ==> range.min <= r <= range.max
  {
    range.min + range.max - value
  }

  lemma InvertInvolution(range: Range, value: int)
    ensures Invert(range, Invert(range, value)) == value
  {
  }

  /** The default temperature range without a temperature capability. */
  const DEFAULT_TEMPERATURE_RANGE := Range(1500, 6500, 100)
  const DEFAULT_TEMPERATURE := 4000

  /** The default slider position sits in the middle, so it sends itself. */
  lemma DefaultTemperatureSendsItself()
    ensures DEFAULT_TEMPERATURE == Midpoint(DEFAULT_TEMPERATURE_RANGE.min, DEFAULT_TEMPERATURE_RANGE.max)
    ensures Invert(DEFAULT_TEMPERATURE_RANGE, DEFAULT_TEMPERATURE) == DEFAULT_TEMPERATURE
  {
  }

  /** `{min, max, precision: precision || 100}`. */
  function TemperatureRange(t: ColorTemperatureRange): (r: Range)
    ensures r.min == t.min && r.max == t.max
    ensures r.precision == (if t.precision.None? || t.precision == Some(0) then 100 else t.precision.value)
    ensures r.precision != 0
  {
    Range(t.min, t.max, if t.precision.None? || t.precision == Some(0) then 100 else t.precision.value)
  }

  /** The initial brightness: the middle of the brightness range, if there is one. */
  function BrightnessStart(caps: seq<Capability>): (r: Option<int>)
    ensures r.Some? <==> RangeOf(RangeCapability(caps, "brightness")).Some?
    ensures r.Some? ==> var range := RangeOf(RangeCapability(caps, "brightness")).value;
      r.value == Midpoint(range.min, range.max) && (range.min <= range.max ==> range.min <= r.value <= range.max)
  {
    var range := RangeOf(RangeCapability(caps, "brightness"));
    if range.Some? then Some(Midpoint(range.value.min, range.value.max)) else None
  }

  /** The initial temperature range and slider value: the middle of the capability's
      `temperature_k` range, or 4000 within 1500..6500 without such a capability. */
  function TemperatureStart(caps: seq<Capability>): (r: (Range, int))
    ensures TemperatureCapability(caps).None? ==> r == (DEFAULT_TEMPERATURE_RANGE, DEFAULT_TEMPERATURE)
    ensures TemperatureCapability(caps).Some? ==>
      var k := TemperatureCapability(caps).value.parameters.value.temperatureK.value;
      r == (TemperatureRange(k), Midpoint(k.min, k.max))
    ensures r.0.min <= r.0.max ==> r.0.min <= r.1 <= r.0.max
  {
    var t := TemperatureCapability(caps);
    if t.Some? then
      var k := t.value.parameters.value.temperatureK.value;
      (TemperatureRange(k), Midpoint(k.min, k.max))
    else (DEFAULT_TEMPERATURE_RANGE, DEFAULT_TEMPERATURE)
  }

  datatype Hsv = Hsv(h: int, s: int, v: int)

  datatype ColorMode = ColorChoice | TemperatureChoice

  /** The record handed to `onApply`; an absent field is a key not set. */
  datatype LightSettings = LightSettings(brightness: Option<int>, hsv: Option<Hsv>, temperatureK: Option<int>)

  const NO_SETTINGS := LightSettings(None, None, None)

  /** What "apply" puts in the record: the brightness when both the value and its range
      are known, then either the chosen colour (colour mode, a colour chosen, an HSV
      capability) or the inverted temperature (temperature mode, value and range known). */
  function Settings(brightness: Option<int>, brightnessRange: Option<Range>, mode: ColorMode,
                    selectedColor: Option<Hsv>, hasHsv: bool,
                    temperatureK: Option<int>, temperatureKRange: Option<Range>): (r: LightSettings)
    ensures r.brightness.Some? <==> brightness.Some? && brightnessRange.Some?
    ensures r.brightness.Some? ==> r.brightness == brightness
    ensures r.hsv.Some? <==> mode == ColorChoice && selectedColor.Some? && hasHsv
    ensures r.hsv.Some? ==> r.hsv == selectedColor
    ensures r.temperatureK.Some? <==> mode == TemperatureChoice && temperatureK.Some? && temperatureKRange.Some?
    ensures r.temperatureK.Some? ==> r.temperatureK == Some(Invert(temperatureKRange.value, temperatureK.value))
    ensures !(r.hsv.Some? && r.temperatureK.Some?)
  {
    LightSettings(
      if brightness.Some? && brightnessRange.Some? then brightness else None,
      if mode == ColorChoice && selectedColor.Some? && hasHsv then selectedColor else None,
      if mode == TemperatureChoice && temperatureK.Some? && temperatureKRange.Some?
      then Some(Invert(temperatureKRange.value, temperatureK.value)) else None)
  }

  /** The modal's state. */
  class GroupLightModal {
    var brightness: Option<int>
    var brightnessRange: Option<Range>
    var temperatureK: Option<int>
    var temperatureKRange: Option<Range>
    var selectedColor: Option<Hsv>
    var colorMode: ColorMode
    var isLoading: bool

    constructor ()
      ensures brightness == None && brightnessRange == None
      ensures temperatureK == None && temperatureKRange == None
      ensures selectedColor == None && colorMode == ColorChoice && !isLoading
    {
      brightness := None;
      brightnessRange := None;
      temperatureK := None;
      temperatureKRange := None;
      selectedColor := None;
      colorMode := ColorChoice;
      isLoading := false;
    }

    /** The effect run when the modal opens, on the first device's capabilities; a closed
        modal changes nothing. */
    method Open(isOpen: bool, group: Group, devices: seq<Device>)
      modifies this
      ensures !isOpen ==> && brightness == old(brightness) && brightnessRange == old(brightnessRange)
                          && temperatureK == old(temperatureK) && temperatureKRange == old(temperatureKRange)
      ensures isOpen ==> var caps := FirstDeviceCapabilities(group, devices);
        && brightnessRange == RangeOf(RangeCapability(caps, "brightness")) && brightness == BrightnessStart(caps)
        && temperatureKRange == Some(TemperatureStart(caps).0) && temperatureK == Some(TemperatureStart(caps).1)
      ensures selectedColor == old(selectedColor) && colorMode == old(colorMode) && isLoading == old(isLoading)
    {
      if !isOpen {
        return;
      }
      var caps := FirstDeviceCapabilities(group, devices);
      brightnessRange := RangeOf(RangeCapability(caps, "brightness"));
      brightness := BrightnessStart(caps);
      var (range, value) := TemperatureStart(caps);
      temperatureKRange := Some(range);
      temperatureK := Some(value);
    }

    /** `handleApply`: fills the record key by key and sends it, unless it stayed empty;
        once the call has settled, whether it succeeded or threw, loading ends. */
    method HandleApply(group: Group, devices: seq<Device>) returns (sent: Option<LightSettings>)
      modifies this
      ensures var caps := FirstDeviceCapabilities(group, devices);
        var s := Settings(old(brightness), old(brightnessRange), old(colorMode), old(selectedColor),
                          ColorModelCapability(caps, "hsv").Some?, old(temperatureK), old(temperatureKRange));
        sent == (if s == NO_SETTINGS then None else Some(s))
      ensures sent.Some? ==> sent.value != NO_SETTINGS
      ensures sent.None? ==> isLoading == old(isLoading)
      ensures sent.Some? ==> !isLoading
      ensures brightness == old(brightness) && brightnessRange == old(brightnessRange)
      ensures temperatureK == old(temperatureK) && temperatureKRange == old(temperatureKRange)
      ensures selectedColor == old(selectedColor) && colorMode == old(colorMode)
    {
      var hsvCapability := ColorModelCapability(FirstDeviceCapabilities(group, devices), "hsv");
      var settings := NO_SETTINGS;
      if brightness.Some? && brightnessRange.Some? {
        settings := settings.(brightness := brightness);
      }
      if colorMode == ColorChoice && selectedColor.Some? && hsvCapability.Some? {
        settings := settings.(hsv := selectedColor);
      } else if colorMode == TemperatureChoice && temperatureK.Some? && temperatureKRange.Some? {
        settings := settings.(temperatureK := Some(Invert(temperatureKRange.value, temperatureK.value)));
      }
      if settings == NO_SETTINGS {
        return None;
      }
      isLoading := true;
      sent := Some(settings);
      isLoading := false;
    }
  }
}
