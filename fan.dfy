/**
 * The fan settings of one device (FanSettingsModal.tsx): the current fan speed and
 * oscillation read from the capabilities, the list of changed settings that "apply"
 * sends, whether it asks to switch the device on, and the re-entry guard around the
 * call.
 */
module Fan {
  import opened Types
  import opened Lookup

  const OSCILLATION := "oscillation"

  /** `fanSpeedCap`: the first `mode` capability with instance `fan_speed`. */
  function FanSpeedCapability(caps: seq<Capability>): (r: Option<Capability>)
    ensures r.Some? ==> r.value in caps && r.value.kind == MODE && HasInstance(r.value, FAN_SPEED)
    ensures r.None? <==> forall c :: c in caps ==> !(c.kind == MODE && HasInstance(c, FAN_SPEED))
  {
    ModeCapabilityByInstance(caps, FAN_SPEED)
  }

  predicate IsOscillation(c: Capability) {
    c.kind == TOGGLE && HasInstance(c, OSCILLATION)
  }

  /** `oscillationCapability`: the first `toggle` capability in list order with instance
      `oscillation`. */
  function OscillationCapability(caps: seq<Capability>): (r: Option<Capability>)
    ensures r.Some? ==> r.value in caps && IsOscillation(r.value)
    ensures r.Some? ==>
      exists i :: 0 <= i < |caps| && caps[i] == r.value && forall j :: 0 <= j < i ==> !IsOscillation(caps[j])
    ensures r.None? <==> forall c :: c in caps ==> !IsOscillation(c)
  {
    Find(caps, IsOscillation)
  }

  /** `getCurrentFanSpeed()`: the fan speed capability's state value when it is truthy,
      otherwise the empty string. */
  function CurrentFanSpeed(caps: seq<Capability>): (r: Value)
    ensures ValueTruthy(r) ==> var c := FanSpeedCapability(caps);
      c.Some? && c.value.state.Some? && c.value.state.value.value == r
    ensures !ValueTruthy(r) ==> r == StrV("")
    ensures var c := FanSpeedCapability(caps);
      c.Some? && c.value.state.Some? && ValueTruthy(c.value.state.value.value) ==> r == c.value.state.value.value
  {
    CurrentModeValue(caps, FAN_SPEED)
  }

  /** `getCurrentOscillation()`: the oscillation capability's state value when it has a
      state (the `?? false` only replaces a missing value), otherwise `false`. */
  function CurrentOscillation(caps: seq<Capability>): (r: Value)
    ensures var c := OscillationCapability(caps);
      r == if c.Some? && c.value.state.Some? then c.value.state.value.value else BoolV(false)
  {
    var c := OscillationCapability(caps);
    if c.Some? && c.value.state.Some? then c.value.state.value.value else BoolV(false)
  }

  /** One entry of `modeActions`: the instance, the value as selected, and the optional
      capability type. */
  datatype FanAction = FanAction(instance: string, value: Value, kind: Option<string>)

  /** `onApply(modeActions, shouldTurnOn)`. */
  datatype FanApplyCall = FanApplyCall(actions: seq<FanAction>, turnOn: bool)

  /** Whether the fan speed is sent: the device has the capability, a speed is selected
      and it differs from the current one. */
  predicate SendsFanSpeed(caps: seq<Capability>, fanSpeed: Value) {
    FanSpeedCapability(caps).Some? && ValueTruthy(fanSpeed) && fanSpeed != CurrentFanSpeed(caps)
  }

  /** Whether oscillation is sent: the device has the capability and the selection
      differs from the current value. */
  predicate SendsOscillation(caps: seq<Capability>, oscillation: Value) {
    OscillationCapability(caps).Some? && oscillation != CurrentOscillation(caps)
  }

  /** What "apply" sends: only the changed settings, the fan speed first. */
  function FanActions(caps: seq<Capability>, fanSpeed: Value, oscillation: Value): seq<FanAction> {
    (if SendsFanSpeed(caps, fanSpeed) then [FanAction(FAN_SPEED, fanSpeed, None)] else [])
    + (if SendsOscillation(caps, oscillation) then [FanAction(OSCILLATION, oscillation, Some(TOGGLE))] else [])
  }

  /** The fan speed is sent, without a type, exactly when it changed; oscillation is sent,
      with the `toggle` type, exactly when it changed; nothing else is sent, and the fan
      speed comes first. */
  lemma FanActionsContents(caps: seq<Capability>, fanSpeed: Value, oscillation: Value)
    ensures var r := FanActions(caps, fanSpeed, oscillation);
      && (FanAction(FAN_SPEED, fanSpeed, None) in r <==> SendsFanSpeed(caps, fanSpeed))
      && (FanAction(OSCILLATION, oscillation, Some(TOGGLE)) in r <==> SendsOscillation(caps, oscillation))
      && (forall a :: a in r ==> a == FanAction(FAN_SPEED, fanSpeed, None) || a == FanAction(OSCILLATION, oscillation, Some(TOGGLE)))
      && (|r| == 2 ==> r[0].instance == FAN_SPEED && r[1].instance == OSCILLATION)
      && (r == [] <==> !SendsFanSpeed(caps, fanSpeed) && !SendsOscillation(caps, oscillation))
  {
  }

  /** Selections that still hold the device's current values change nothing, so "apply"
      sends nothing. */
  lemma UnchangedSelectionSendsNothing(caps: seq<Capability>)
    ensures FanActions(caps, CurrentFanSpeed(caps), CurrentOscillation(caps)) == []
  {
  }

  /** `shouldTurnOn = !isDeviceOn`, where a device without `on_off` counts as on. */
  function ShouldTurnOn(caps: seq<Capability>): (r: bool)
    ensures r <==> OnOffCapability(caps).Some? && !OnOffIsTrue(caps)
    ensures OnOffIsTrue(caps) ==> !r
    ensures (forall c :: c in caps ==> c.kind != ON_OFF) ==> !r
  {
    var onOff := OnOffCapability(caps);
    var isDeviceOn := if onOff.Some? then onOff.value.state.Some? && onOff.value.state.value.value == BoolV(true) else true;
    !isDeviceOn
  }

  /** The `modeActions.push(...)` steps of `handleApply`. */
  method CollectFanActions(caps: seq<Capability>, fanSpeed: Value, oscillation: Value) returns (modeActions: seq<FanAction>)
    ensures modeActions == FanActions(caps, fanSpeed, oscillation)
  {
    modeActions := [];
    if FanSpeedCapability(caps).Some? && ValueTruthy(fanSpeed) && fanSpeed != CurrentFanSpeed(caps) {
      modeActions := modeActions + [FanAction(FAN_SPEED, fanSpeed, None)];
    }
    if OscillationCapability(caps).Some? && oscillation != CurrentOscillation(caps) {
      modeActions := modeActions + [FanAction(OSCILLATION, oscillation, Some(TOGGLE))];
    }
  }

  /** The modal's state, with `isApplyingRef.current` as `isApplying`. */
  class FanModal {
    var fanSpeed: Value
    var oscillation: Value
    var isLoading: bool
    var isApplying: bool

    constructor ()
      ensures fanSpeed == StrV("") && oscillation == BoolV(false) && !isLoading && !isApplying
    {
      fanSpeed := StrV("");
      oscillation := BoolV(false);
      isLoading := false;
      isApplying := false;
    }

    /** The initialisation effect: on opening, both selections start at the device's
        current values. */
    method Open(isOpen: bool, device: Device)
      modifies this
      ensures isOpen ==> fanSpeed == CurrentFanSpeed(device.capabilities) && oscillation == CurrentOscillation(device.capabilities)
      ensures !isOpen ==> fanSpeed == old(fanSpeed) && oscillation == old(oscillation)
      ensures isLoading == old(isLoading) && isApplying == old(isApplying)
    {
      if isOpen {
        fanSpeed := CurrentFanSpeed(device.capabilities);
        oscillation := CurrentOscillation(device.capabilities);
      }
    }

    /** A speed button: `setFanSpeed(mode.value)`. */
    method SelectFanSpeed(value: string)
      modifies this
      ensures fanSpeed == StrV(value)
      ensures oscillation == old(oscillation) && isLoading == old(isLoading) && isApplying == old(isApplying)
    {
      fanSpeed := StrV(value);
    }

    /** An oscillation button: `setOscillation(false)` or `setOscillation(true)`. */
    method SelectOscillation(on: bool)
      modifies this
      ensures oscillation == BoolV(on)
      ensures fanSpeed == old(fanSpeed) && isLoading == old(isLoading) && isApplying == old(isApplying)
    {
      oscillation := BoolV(on);
    }

    /** `handleApply` up to the `await`: ignored while an apply is pending; no call when
        nothing changed; otherwise the guard is set, loading starts, and the changed
        settings are sent, asking to switch the device on only when it is off. */
    method StartApply(device: Device) returns (call: Option<FanApplyCall>)
      modifies this
      ensures var acts := FanActions(device.capabilities, old(fanSpeed), old(oscillation));
        && (old(isApplying) || acts == [] ==> call == None && isLoading == old(isLoading) && isApplying == old(isApplying))
        && (!old(isApplying) && acts != [] ==>
              call == Some(FanApplyCall(acts, ShouldTurnOn(device.capabilities))) && isLoading && isApplying)
      ensures fanSpeed == old(fanSpeed) && oscillation == old(oscillation)
    {
      if isApplying {
        return None;
      }
      var modeActions := CollectFanActions(device.capabilities, fanSpeed, oscillation);
      if |modeActions| == 0 {
        return None;
      }
      var shouldTurnOn := ShouldTurnOn(device.capabilities);
      isApplying := true;
      isLoading := true;
      call := Some(FanApplyCall(modeActions, shouldTurnOn));
    }

    /** The rest of `handleApply`: the modal is closed only when the call succeeded, and
        in either case loading ends and the guard is cleared. */
    method FinishApply(succeeded: bool) returns (close: bool)
      modifies this
      ensures close == succeeded
      ensures !isLoading && !isApplying
      ensures fanSpeed == old(fanSpeed) && oscillation == old(oscillation)
    {
      close := succeeded;
      isLoading := false;
      isApplying := false;
    }
  }

  /** Two applies in a row without the first settling: the second sends nothing and the
      first call is still pending. */
  method DoubleApply(m: FanModal, device: Device) returns (first: Option<FanApplyCall>, second: Option<FanApplyCall>)
    requires !m.isApplying
    modifies m
    ensures first == (var acts := FanActions(device.capabilities, old(m.fanSpeed), old(m.oscillation));
                      if acts == [] then None else Some(FanApplyCall(acts, ShouldTurnOn(device.capabilities))))
    ensures first.Some? ==> second == None && m.isApplying && m.isLoading
  {
    first := m.StartApply(device);
    second := m.StartApply(device);
  }
}
