/**
 * The brightness settings of one device (BrightnessSettingsModal.tsx): the slider's range
 * and starting value, when the modal renders at all, and "apply", which always asks to
 * switch the device on.
 */
module Brightness {
  import opened Types
  import opened Lookup

  const BRIGHTNESS := "brightness"

  /** `onApply(brightness, true)`. */
  datatype BrightnessCall = BrightnessCall(brightness: int, turnOn: bool)

  /** The modal's state. */
  class BrightnessModal {
    var brightness: Option<int>
    var brightnessRange: Option<Range>
    var isLoading: bool

    constructor ()
      ensures brightness == None && brightnessRange == None && !isLoading
    {
      brightness := None;
      brightnessRange := None;
      isLoading := false;
    }

    /** The initialisation effect: the range of the device's brightness capability, and
        the state's number or else the bottom of the range; both none without a range. */
    method Init(device: Device)
      modifies this
      ensures (brightnessRange, brightness) == RangeStart(device.capabilities, BRIGHTNESS)
      ensures brightness.Some? <==> brightnessRange.Some?
      ensures isLoading == old(isLoading)
    {
      var start := RangeStart(device.capabilities, BRIGHTNESS);
      brightnessRange := start.0;
      brightness := start.1;
    }

    /** `if (!isOpen || !brightnessRange) return null`, negated. */
    predicate Renders(isOpen: bool)
      reads this
    {
      isOpen && brightnessRange.Some?
    }

    /** The slider's `onChange`. */
    method SetBrightness(value: int)
      modifies this
      ensures brightness == Some(value)
      ensures brightnessRange == old(brightnessRange) && isLoading == old(isLoading)
    {
      brightness := Some(value);
    }

    /** `handleApply`: nothing without a brightness; otherwise the brightness is sent with
        `turnOn` set and, whether the call succeeded or threw, loading ends. */
    method HandleApply() returns (sent: Option<BrightnessCall>)
      modifies this
      ensures old(brightness).None? ==> sent == None && isLoading == old(isLoading)
      ensures old(brightness).Some? ==> sent == Some(BrightnessCall(old(brightness).value, true)) && !isLoading
      ensures brightness == old(brightness) && brightnessRange == old(brightnessRange)
    {
      if brightness.None? {
        return None;
      }
      isLoading := true;
      sent := Some(BrightnessCall(brightness.value, true));
      isLoading := false;
    }
  }

  /** Once initialised, a modal that renders always has a brightness to send. */
  method ApplyAfterInit(m: BrightnessModal, device: Device, isOpen: bool) returns (sent: Option<BrightnessCall>)
    modifies m
    ensures m.Renders(isOpen) ==> sent.Some? && sent.value.turnOn
    ensures sent.Some? <==> RangeStart(device.capabilities, BRIGHTNESS).1.Some?
    ensures sent.Some? ==> Some(sent.value.brightness) == RangeStart(device.capabilities, BRIGHTNESS).1
  {
    m.Init(device);
    sent := m.HandleApply();
  }
}
