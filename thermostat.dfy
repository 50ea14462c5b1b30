/**
 * The climate settings of one device (ThermostatSettingsModal.tsx): the `mode`
 * capabilities looked up by instance, the initial temperature and mode selections, and
 * the ordered action list that "apply" sends, always asking to switch the device on.
 */
module Thermostat {
  import opened Types
  import opened Lookup

  /** One entry of the list handed to `onApply`: the instance, the value as text, and the
      capability type it belongs to. */
  datatype ModeAction = ModeAction(instance: string, value: string, kind: string)

  /** `onApply(actions, turnOn)`. */
  datatype ApplyCall = ApplyCall(actions: seq<ModeAction>, turnOn: bool)

  const THERMOSTAT := "thermostat"
  const SWING := "swing"
  const TEMPERATURE := "temperature"

  /** The position of an instance in the fixed order of the action list. */
  function InstanceRank(instance: string): int {
    if instance == THERMOSTAT then 0
    else if instance == SWING then 1
    else if instance == FAN_SPEED then 2
    else if instance == TEMPERATURE then 3
    else 4
  }

  /** A one-element list when `present`, otherwise the empty list. */
  function When(present: bool, a: ModeAction): (r: seq<ModeAction>)
    ensures forall b :: b in r <==> present && b == a
    ensures |r| <= 1
  {
    if present then [a] else []
  }

  /** Which of the four settings the device offers. */
  datatype Offered = Offered(thermostat: bool, swing: bool, fanSpeed: bool, temperature: bool)

  /** `thermostatCap`, `swingCap` and `fanSpeedCap` by instance among the `mode`
      capabilities, and the temperature range capability. */
  function OfferedBy(caps: seq<Capability>): (r: Offered)
    ensures r.thermostat <==> ModeCapabilityByInstance(caps, THERMOSTAT).Some?
    ensures r.swing <==> ModeCapabilityByInstance(caps, SWING).Some?
    ensures r.fanSpeed <==> ModeCapabilityByInstance(caps, FAN_SPEED).Some?
    ensures r.temperature <==> RangeCapability(caps, TEMPERATURE).Some?
  {
    Offered(ModeCapabilityByInstance(caps, THERMOSTAT).Some?, ModeCapabilityByInstance(caps, SWING).Some?,
            ModeCapabilityByInstance(caps, FAN_SPEED).Some?, RangeCapability(caps, TEMPERATURE).Some?)
  }

  /** What "apply" sends for the selections, in the order of the pushes. */
  function ThermostatActions(offered: Offered, thermostatMode: Value, swingMode: Value,
                             fanSpeed: Value, temperature: Option<int>): seq<ModeAction>
  {
    When(offered.thermostat && ValueTruthy(thermostatMode), ModeAction(THERMOSTAT, ValueText(thermostatMode), MODE))
    + When(offered.swing && ValueTruthy(swingMode), ModeAction(SWING, ValueText(swingMode), MODE))
    + When(offered.fanSpeed && ValueTruthy(fanSpeed), ModeAction(FAN_SPEED, ValueText(fanSpeed), MODE))
    + When(offered.temperature && temperature.Some?,
           ModeAction(TEMPERATURE, if temperature.Some? then ValueText(NumV(temperature.value)) else "", RANGE))
  }

  /** The instances of `r` come in strictly increasing rank. */
  predicate Ascending(r: seq<ModeAction>) {
    forall i, j :: 0 <= i < j < |r| ==> InstanceRank(r[i].instance) < InstanceRank(r[j].instance)
  }

  /** Appending a list whose ranks are all at least `n` to one whose ranks are all below
      `n` keeps the order. */
  lemma AscendingAppend(x: seq<ModeAction>, y: seq<ModeAction>, n: int)
    requires Ascending(x) && Ascending(y)
    requires forall a :: a in x ==> InstanceRank(a.instance) < n
    requires forall b :: b in y ==> InstanceRank(b.instance) >= n
    ensures Ascending(x + y)
  {
    forall i, j | 0 <= i < j < |x + y|
      ensures InstanceRank((x + y)[i].instance) < InstanceRank((x + y)[j].instance)
    {
      if j < |x| {
        assert (x + y)[i] == x[i] && (x + y)[j] == x[j];
      } else if i < |x| {
        assert (x + y)[i] == x[i] && x[i] in x;
        assert (x + y)[j] == y[j - |x|] && y[j - |x|] in y;
      } else {
        assert (x + y)[i] == y[i - |x|] && (x + y)[j] == y[j - |x|];
      }
    }
  }

  /** The actions are each of thermostat, swing and fan speed when the device offers it
      and its selection is truthy, then the temperature when the device offers a
      temperature range and a temperature is set; every value as text. */
  lemma ThermostatActionsContents(offered: Offered, thermostatMode: Value, swingMode: Value,
                                  fanSpeed: Value, temperature: Option<int>, a: ModeAction)
    ensures a in ThermostatActions(offered, thermostatMode, swingMode, fanSpeed, temperature) <==>
      || (a == ModeAction(THERMOSTAT, ValueText(thermostatMode), MODE) && offered.thermostat && ValueTruthy(thermostatMode))
      || (a == ModeAction(SWING, ValueText(swingMode), MODE) && offered.swing && ValueTruthy(swingMode))
      || (a == ModeAction(FAN_SPEED, ValueText(fanSpeed), MODE) && offered.fanSpeed && ValueTruthy(fanSpeed))
      || (temperature.Some? && a == ModeAction(TEMPERATURE, ValueText(NumV(temperature.value)), RANGE) && offered.temperature)
  {
    var t := When(offered.thermostat && ValueTruthy(thermostatMode), ModeAction(THERMOSTAT, ValueText(thermostatMode), MODE));
    var s := When(offered.swing && ValueTruthy(swingMode), ModeAction(SWING, ValueText(swingMode), MODE));
    var f := When(offered.fanSpeed && ValueTruthy(fanSpeed), ModeAction(FAN_SPEED, ValueText(fanSpeed), MODE));
    var k := When(offered.temperature && temperature.Some?,
                  ModeAction(TEMPERATURE, if temperature.Some? then ValueText(NumV(temperature.value)) else "", RANGE));
    assert ThermostatActions(offered, thermostatMode, swingMode, fanSpeed, temperature) == t + s + f + k;
    assert a in t + s + f + k <==> a in t || a in s || a in f || a in k;
  }

  /** The actions come in the fixed order thermostat, swing, fan speed, temperature, so
      each instance appears at most once. */
  lemma ThermostatActionsOrdered(offered: Offered, thermostatMode: Value, swingMode: Value,
                                 fanSpeed: Value, temperature: Option<int>)
    ensures var r := ThermostatActions(offered, thermostatMode, swingMode, fanSpeed, temperature);
      forall i, j :: 0 <= i < j < |r| ==> InstanceRank(r[i].instance) < InstanceRank(r[j].instance)
  {
    var t := When(offered.thermostat && ValueTruthy(thermostatMode), ModeAction(THERMOSTAT, ValueText(thermostatMode), MODE));
    var s := When(offered.swing && ValueTruthy(swingMode), ModeAction(SWING, ValueText(swingMode), MODE));
    var f := When(offered.fanSpeed && ValueTruthy(fanSpeed), ModeAction(FAN_SPEED, ValueText(fanSpeed), MODE));
    var k := When(offered.temperature && temperature.Some?,
                  ModeAction(TEMPERATURE, if temperature.Some? then ValueText(NumV(temperature.value)) else "", RANGE));
    assert InstanceRank(THERMOSTAT) == 0 && InstanceRank(SWING) == 1;
    assert InstanceRank(FAN_SPEED) == 2 && InstanceRank(TEMPERATURE) == 3;
    AscendingFour(t, s, f, k);
    assert ThermostatActions(offered, thermostatMode, swingMode, fanSpeed, temperature) == t + s + f + k;
  }

  /** Four lists of at most one action each, of ranks 0, 1, 2 and 3, concatenate into an
      ascending list. */
  lemma AscendingFour(t: seq<ModeAction>, s: seq<ModeAction>, f: seq<ModeAction>, k: seq<ModeAction>)
    requires |t| <= 1 && |s| <= 1 && |f| <= 1 && |k| <= 1
    requires forall a :: a in t ==> InstanceRank(a.instance) == 0
    requires forall a :: a in s ==> InstanceRank(a.instance) == 1
    requires forall a :: a in f ==> InstanceRank(a.instance) == 2
    requires forall a :: a in k ==> InstanceRank(a.instance) == 3
    ensures Ascending(t + s + f + k)
  {
    AscendingAppend(t, s, 1);
    AscendingAppend(t + s, f, 2);
    AscendingAppend(t + s + f, k, 3);
  }

  /** The `modeActions.push(...)` steps of `handleApply`, each value already in the text
      form that the later `String(action.value)` mapping gives it. */
  method CollectActions(offered: Offered, thermostatMode: Value, swingMode: Value,
                        fanSpeed: Value, temperature: Option<int>) returns (modeActions: seq<ModeAction>)
    ensures modeActions == ThermostatActions(offered, thermostatMode, swingMode, fanSpeed, temperature)
  {
    var t := When(offered.thermostat && ValueTruthy(thermostatMode), ModeAction(THERMOSTAT, ValueText(thermostatMode), MODE));
    var s := When(offered.swing && ValueTruthy(swingMode), ModeAction(SWING, ValueText(swingMode), MODE));
    var f := When(offered.fanSpeed && ValueTruthy(fanSpeed), ModeAction(FAN_SPEED, ValueText(fanSpeed), MODE));
    modeActions := [];
    if offered.thermostat && ValueTruthy(thermostatMode) {
      modeActions := modeActions + [ModeAction(THERMOSTAT, ValueText(thermostatMode), MODE)];
    }
    assert modeActions == t;
    if offered.swing && ValueTruthy(swingMode) {
      modeActions := modeActions + [ModeAction(SWING, ValueText(swingMode), MODE)];
    }
    assert modeActions == t + s;
    if offered.fanSpeed && ValueTruthy(fanSpeed) {
      modeActions := modeActions + [ModeAction(FAN_SPEED, ValueText(fanSpeed), MODE)];
    }
    assert modeActions == t + s + f;
    if offered.temperature && temperature.Some? {
      modeActions := modeActions + [ModeAction(TEMPERATURE, ValueText(NumV(temperature.value)), RANGE)];
    }
  }

  /** The current values of the thermostat, swing and fan-speed modes. */
  function CurrentSelections(caps: seq<Capability>): (Value, Value, Value) {
    (CurrentModeValue(caps, THERMOSTAT), CurrentModeValue(caps, SWING), CurrentModeValue(caps, FAN_SPEED))
  }

  /** The modal's state; a mode selection holds whatever `getCurrentValue` returned. */
  class ThermostatModal {
    var thermostatMode: Value
    var swingMode: Value
    var fanSpeed: Value
    var temperature: Option<int>
    var temperatureRange: Option<Range>
    var isLoading: bool

    constructor ()
      ensures thermostatMode == StrV("") && swingMode == StrV("") && fanSpeed == StrV("")
      ensures temperature == None && temperatureRange == None && !isLoading
    {
      thermostatMode := StrV("");
      swingMode := StrV("");
      fanSpeed := StrV("");
      temperature := None;
      temperatureRange := None;
      isLoading := false;
    }

    /** The temperature effect, run whenever the device changes or the modal opens or
        closes. */
    method InitTemperature(device: Device)
      modifies this
      ensures (temperatureRange, temperature) == RangeStart(device.capabilities, TEMPERATURE)
      ensures thermostatMode == old(thermostatMode) && swingMode == old(swingMode) && fanSpeed == old(fanSpeed)
      ensures isLoading == old(isLoading)
    {
      var start := RangeStart(device.capabilities, TEMPERATURE);
      temperatureRange := start.0;
      temperature := start.1;
    }

    /** The selection effect: on opening, each selection starts at the device's current
        value for that instance. */
    method Open(isOpen: bool, device: Device)
      modifies this
      ensures isOpen ==> (thermostatMode, swingMode, fanSpeed) == CurrentSelections(device.capabilities)
      ensures !isOpen ==> thermostatMode == old(thermostatMode) && swingMode == old(swingMode) && fanSpeed == old(fanSpeed)
      ensures temperature == old(temperature) && temperatureRange == old(temperatureRange) && isLoading == old(isLoading)
    {
      var selections := CurrentSelections(device.capabilities);
      if isOpen {
        thermostatMode, swingMode, fanSpeed := selections.0, selections.1, selections.2;
      }
    }

    /** `handleApply`: collects the actions, sends nothing when there are none, and otherwise sends them with `turnOn` set; once the call has settled,
        whether it succeeded or threw, loading ends. */
    method HandleApply(device: Device) returns (sent: Option<ApplyCall>)
      modifies this
      ensures var acts := ThermostatActions(OfferedBy(device.capabilities), old(thermostatMode), old(swingMode),
                                            old(fanSpeed), old(temperature));
        sent == (if acts == [] then None else Some(ApplyCall(acts, true)))
      ensures sent.Some? ==> !isLoading
      ensures sent.None? ==> isLoading == old(isLoading)
      ensures thermostatMode == old(thermostatMode) && swingMode == old(swingMode) && fanSpeed == old(fanSpeed)
      ensures temperature == old(temperature) && temperatureRange == old(temperatureRange)
    {
      var modeActions := CollectActions(OfferedBy(device.capabilities), thermostatMode, swingMode, fanSpeed, temperature);
      if |modeActions| == 0 {
        return None;
      }
      isLoading := true;
      sent := Some(ApplyCall(modeActions, true));
      isLoading := false;
    }
  }
}
