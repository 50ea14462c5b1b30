/**
 * The decisions of one group card (GroupCard.tsx): which devices belong to the group,
 * whether it is a light or a climate group, whether all its members are on, whether the
 * group's own switch is on, which buttons the header shows, and the `loading` guard
 * around the group toggle.
 */
module GroupCard {
  import opened Types
  import opened Lookup

  /** `devices.filter(d => group.devices.includes(d.id))`. */
  function GroupDevices(group: Group, devices: seq<Device>): (r: seq<Device>)
    ensures |r| <= |devices|
    ensures forall d :: d in r <==> d in devices && d.id in group.devices
  {
    DevicesWithIds(group.devices, devices)
  }

  /** The group's devices come in device-list order, each as often as there. */
  lemma GroupDevicesInOrder(group: Group, a: seq<Device>, b: seq<Device>)
    ensures |a| == 1 ==> GroupDevices(group, a) == if a[0].id in group.devices then a else []
    ensures GroupDevices(group, a + b) == GroupDevices(group, a) + GroupDevices(group, b)
  {
    DevicesWithIdsInOrder(group.devices, a, b);
  }

  const LIGHT := "devices.types.light"
  const THERMOSTAT_AC := "devices.types.thermostat.ac"
  const THERMOSTAT := "devices.types.thermostat"

  /** Non-empty, and every member is a light. */
  predicate IsLightGroup(members: seq<Device>) {
    |members| > 0 && forall d :: d in members ==> d.kind == LIGHT
  }

  predicate IsThermostatKind(kind: string) {
    kind == THERMOSTAT_AC || kind == THERMOSTAT
  }

  /** Non-empty, and every member is an air conditioner or a thermostat. */
  predicate IsThermostatGroup(members: seq<Device>) {
    |members| > 0 && forall d :: d in members ==> IsThermostatKind(d.kind)
  }

  /** No group is both a light group and a climate group. */
  lemma GroupKindsExclusive(members: seq<Device>)
    ensures !(IsLightGroup(members) && IsThermostatGroup(members))
  {
    if |members| > 0 {
      var d := members[0];
      assert d in members;
      assert d.kind == LIGHT ==> !IsThermostatKind(d.kind);
    }
  }

  /** The members whose own `on_off` state is exactly `true`. */
  function OnMembers(members: seq<Device>): (r: seq<Device>)
    ensures forall d :: d in r <==> d in members && OnOffIsTrue(d.capabilities)
  {
    Filter(members, (d: Device) => OnOffIsTrue(d.capabilities))
  }

  /** `groupIsOn`: false for an empty group, otherwise all members counted as on. */
  predicate GroupIsOn(members: seq<Device>) {
    |members| > 0 && |OnMembers(members)| == |members|
  }

  /** The group is on exactly when it has members and each of them is on. */
  lemma GroupIsOnIff(members: seq<Device>)
    ensures GroupIsOn(members) <==> |members| > 0 && forall i :: 0 <= i < |members| ==> OnOffIsTrue(members[i].capabilities)
  {
    FilterKeepsAll(members, (d: Device) => OnOffIsTrue(d.capabilities));
  }

  /** `group.capabilities.some(c => c.type === 'devices.capabilities.on_off')`. */
  predicate HasOnOff(group: Group) {
    exists c :: c in group.capabilities && IsOnOff(c)
  }

  /** `groupIsEnabled`: the group's own first `on_off` capability is exactly `true`. It
      is computed from the group alone; the members' states play no part. */
  predicate GroupIsEnabled(group: Group)
    ensures GroupIsEnabled(group) ==> HasOnOff(group)
  {
    OnOffIsTrue(group.capabilities)
  }

  /** The header: the two settings buttons and the group toggle. */
  datatype Header = Header(lightSettings: bool, climateSettings: bool, toggle: bool)

  /** The header for a group whose members are `members`; `canOpenSettings` says whether
      the parent passed `onOpenGroupSettings`. */
  function HeaderButtons(group: Group, members: seq<Device>, canOpenSettings: bool): (r: Header)
    ensures r.toggle <==> HasOnOff(group)
    ensures r.lightSettings <==> HasOnOff(group) && IsLightGroup(members) && canOpenSettings
    ensures r.climateSettings <==> HasOnOff(group) && IsThermostatGroup(members) && canOpenSettings
  {
    var on := HasOnOff(group);
    Header(on && IsLightGroup(members) && canOpenSettings,
           on && IsThermostatGroup(members) && canOpenSettings,
           on)
  }

  /** At most one settings button is shown, and only beside the group toggle. */
  lemma AtMostOneSettingsButton(group: Group, members: seq<Device>, canOpenSettings: bool)
    ensures var h := HeaderButtons(group, members, canOpenSettings);
      !(h.lightSettings && h.climateSettings) && (h.lightSettings || h.climateSettings ==> h.toggle)
  {
    GroupKindsExclusive(members);
  }

  /** The arguments of `onToggleGroup(group.id, groupIsEnabled)`. */
  datatype GroupToggleCall = GroupToggleCall(groupId: string, currentState: bool)

  /** The card's `loading` flag around the group toggle. */
  class GroupCardState {
    var loading: bool

    constructor ()
      ensures !loading
    {
      loading := false;
    }

    /** The toggle: ignored without an `on_off` capability or while pending; otherwise the
        card starts loading and asks to toggle from the group's own state. */
    method StartToggleGroup(group: Group) returns (call: Option<GroupToggleCall>)
      modifies this
      ensures !HasOnOff(group) || old(loading) ==> call == None && loading == old(loading)
      ensures HasOnOff(group) && !old(loading) ==>
                call == Some(GroupToggleCall(group.id, GroupIsEnabled(group))) && loading
    {
      if !HasOnOff(group) || loading {
        return None;
      }
      loading := true;
      call := Some(GroupToggleCall(group.id, GroupIsEnabled(group)));
    }

    /** The `finally` of the toggle: whatever the outcome, loading ends. */
    method FinishToggleGroup()
      modifies this
      ensures !loading
    {
      loading := false;
    }
  }
}
