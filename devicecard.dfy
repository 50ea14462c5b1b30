/**
 * The decisions of one device tile (DeviceCard.tsx): whether it can be toggled and is on,
 * whether it is a sensor and which reading and unit it shows, the status line, and the
 * `loading` guard around a click.
 */
module DeviceCard {
  import opened Types
  import opened Text
  import opened Lookup

  /** `!!onOffCapability`. */
  predicate IsToggleable(d: Device) {
    OnOffCapability(d.capabilities).Some?
  }

  /** `onOffCapability?.state?.value === true`; a device that is on can be toggled. */
  predicate IsOn(d: Device)
    ensures IsOn(d) ==> IsToggleable(d)
  {
    OnOffIsTrue(d.capabilities)
  }

  /** A device is toggleable exactly when some capability is `on_off`. */
  lemma ToggleableIff(d: Device)
    ensures IsToggleable(d) <==> exists c :: c in d.capabilities && c.kind == ON_OFF
  {
    if c :| c in d.capabilities && c.kind == ON_OFF {
      assert IsOnOff(c);
    }
  }

  /** `parameters?.instance ?? state?.instance`. */
  function PropertyInstance(p: Property): (r: Option<string>)
    ensures p.parameters.Some? ==> r == Some(p.parameters.value.instance)
    ensures p.parameters.None? && p.state.Some? ==> r == Some(p.state.value.instance)
    ensures p.parameters.None? && p.state.None? ==> r == None
  {
    if p.parameters.Some? then Some(p.parameters.value.instance)
    else if p.state.Some? then Some(p.state.value.instance)
    else None
  }

  /** The sensor test of the `find`: a property type and a string instance. */
  predicate IsSensorProperty(p: Property) {
    Contains(p.kind, PROPERTIES_PREFIX) && PropertyInstance(p).Some?
  }

  /** The first property passing the sensor test, looking through `properties ?? []`. */
  function SensorProperty(d: Device): (r: Option<Property>)
    ensures r.Some? ==> d.properties.Some? && r.value in d.properties.value && IsSensorProperty(r.value)
    ensures r.Some? ==> var ps := d.properties.value;
      exists i :: 0 <= i < |ps| && ps[i] == r.value && forall j :: 0 <= j < i ==> !IsSensorProperty(ps[j])
    ensures r.None? <==> d.properties.None? || forall p :: p in d.properties.value ==> !IsSensorProperty(p)
  {
    Find(d.properties.GetOr([]), IsSensorProperty)
  }

  /** `!isToggleable && !!sensorProperty`. */
  predicate IsSensor(d: Device) {
    !IsToggleable(d) && SensorProperty(d).Some?
  }

  /** `sensorProperty?.parameters?.instance ?? sensorProperty?.state?.instance`. */
  function SensorInstance(d: Device): Option<string> {
    var p := SensorProperty(d);
    if p.Some? then PropertyInstance(p.value) else None
  }

  /** `sensorProperty?.state?.value`. */
  function RawSensorValue(d: Device): Option<Value> {
    var p := SensorProperty(d);
    if p.Some? && p.value.state.Some? then Some(p.value.state.value.value) else None
  }

  /** `sensorProperty?.parameters?.unit ?? sensorProperty?.state?.unit`: the parameters'
      unit when it is present at all (even when empty), else the state's. */
  function RawSensorUnit(d: Device): (r: Option<string>)
    ensures var p := SensorProperty(d);
      && (p.Some? && p.value.parameters.Some? && p.value.parameters.value.unit.Some? ==> r == p.value.parameters.value.unit)
      && (r.Some? ==> p.Some? && ((p.value.parameters.Some? && p.value.parameters.value.unit == r)
                                  || (p.value.state.Some? && p.value.state.value.unit == r)))
    ensures var p := SensorProperty(d);
      p.Some? && !(p.value.parameters.Some? && p.value.parameters.value.unit.Some?) ==>
        r == (if p.value.state.Some? then p.value.state.value.unit else None)
    ensures SensorProperty(d).None? ==> r == None
  {
    var p := SensorProperty(d);
    if p.None? then None
    else if p.value.parameters.Some? && p.value.parameters.value.unit.Some? then p.value.parameters.value.unit
    else if p.value.state.Some? then p.value.state.value.unit
    else None
  }

  /** `rawSensorUnit || (...)`: a non-empty given unit wins; otherwise humidity is `%`,
      temperature is `°C` and anything else has no unit. */
  function ResolvedUnit(rawUnit: Option<string>, instance: Option<string>): (r: string)
    ensures Truthy(rawUnit) ==> r == rawUnit.value
    ensures !Truthy(rawUnit) && instance == Some("humidity") ==> r == "%"
    ensures !Truthy(rawUnit) && instance == Some("temperature") ==> r == "°C"
    ensures !Truthy(rawUnit) && instance != Some("humidity") && instance != Some("temperature") ==> r == ""
  {
    if Truthy(rawUnit) then rawUnit.value
    else if instance == Some("humidity") then "%"
    else if instance == Some("temperature") then "°C"
    else ""
  }

  /** The reading followed by its unit for a number or a string, nothing otherwise. */
  function FormattedSensorValue(raw: Option<Value>, unit: string): (r: Option<string>)
    ensures r.Some? <==> raw.Some? && (raw.value.NumV? || raw.value.StrV?)
    ensures r.Some? ==> r.value == ValueText(raw.value) + unit
    ensures r.Some? && raw.value.NumV? ==> r.value != ""
  {
    match raw
    case Some(NumV(n)) => Some(IntText(n) + unit)
    case Some(StrV(s)) => Some(s + unit)
    case _ => None
  }

  function DeviceReading(d: Device): Option<string> {
    FormattedSensorValue(RawSensorValue(d), ResolvedUnit(RawSensorUnit(d), SensorInstance(d)))
  }

  const UPDATING := "Обновление..."
  const SWITCHED_ON := "Включено"
  const SWITCHED_OFF := "Выключено"

  /** The status line: updating first, then a sensor's non-empty reading, then on, then
      off. */
  function StatusText(d: Device, loading: bool): (r: string)
    ensures loading ==> r == UPDATING
    ensures !loading && IsSensor(d) && Truthy(DeviceReading(d)) ==> r == DeviceReading(d).value
    ensures !loading && !(IsSensor(d) && Truthy(DeviceReading(d))) ==> r == (if IsOn(d) then SWITCHED_ON else SWITCHED_OFF)
  {
    if loading then UPDATING
    else if IsSensor(d) && Truthy(DeviceReading(d)) then DeviceReading(d).value
    else if IsOn(d) then SWITCHED_ON
    else SWITCHED_OFF
  }

  /** A toggleable device never shows a reading, only the three fixed texts. */
  lemma ToggleableShowsFixedText(d: Device, loading: bool)
    requires IsToggleable(d)
    ensures StatusText(d, loading) in {UPDATING, SWITCHED_ON, SWITCHED_OFF}
  {
  }

  /** An idle sensor reporting a number shows that number followed by its unit. */
  lemma NumericSensorShowsReading(d: Device, n: int)
    requires IsSensor(d) && RawSensorValue(d) == Some(NumV(n))
    ensures StatusText(d, false) == IntText(n) + ResolvedUnit(RawSensorUnit(d), SensorInstance(d))
  {
    var u := ResolvedUnit(RawSensorUnit(d), SensorInstance(d));
    assert DeviceReading(d) == Some(IntText(n) + u);
    assert |IntText(n)| > 0;
  }

  /** The arguments of `onToggle(device.id, isOn)`. */
  datatype ToggleCall = ToggleCall(deviceId: string, currentState: bool)

  /** The card's `loading` flag around a click. */
  class DeviceCardState {
    var loading: bool

    constructor ()
      ensures !loading
    {
      loading := false;
    }

    /** The click: ignored when the device cannot be toggled or a toggle is pending;
        otherwise the card starts loading and asks for a toggle from the current state. */
    method StartClick(d: Device) returns (call: Option<ToggleCall>)
      modifies this
      ensures !IsToggleable(d) || old(loading) ==> call == None && loading == old(loading)
      ensures IsToggleable(d) && !old(loading) ==> call == Some(ToggleCall(d.id, IsOn(d))) && loading
    {
      if !IsToggleable(d) || loading {
        return None;
      }
      loading := true;
      call := Some(ToggleCall(d.id, IsOn(d)));
    }

    /** The `finally` of the click: whether the toggle succeeded or threw, loading ends. */
    method FinishClick()
      modifies this
      ensures !loading
    {
      loading := false;
    }
  }
}
