/**
 * What the dashboard shows for a snapshot (Dashboard.tsx): the two counters, the active
 * scenarios, the flat device list used when there are no rooms, one section per room
 * holding at least one known device, and the "no room" section.
 */
module Dashboard {
  import opened Types
  import opened Lookup

  /** `data.scenarios.filter(s => s.is_active)`. */
  function ActiveScenarios(scenarios: seq<Scenario>): (r: seq<Scenario>)
    ensures |r| <= |scenarios|
    ensures forall s :: s in r <==> s in scenarios && s.isActive
  {
    Filter(scenarios, (s: Scenario) => s.isActive)
  }

  /** The active scenarios keep the snapshot's order: the active ones of a concatenation
      are the active ones of each part, in turn. */
  lemma ActiveScenariosInOrder(a: seq<Scenario>, b: seq<Scenario>)
    ensures ActiveScenarios(a + b) == ActiveScenarios(a) + ActiveScenarios(b)
  {
    FilterAppend(a, b, (s: Scenario) => s.isActive);
  }

  /** A room card: the room and the devices it lists, in snapshot order. */
  datatype Section = Section(roomId: string, title: string, devices: seq<Device>)

  function SectionOf(room: Room, devices: seq<Device>): (r: Section)
    ensures r.roomId == room.id && r.title == room.name
    ensures forall d :: d in r.devices <==> d in devices && d.id in room.devices
  {
    Section(room.id, room.name, DevicesWithIds(room.devices, devices))
  }

  /** A room's section lists its devices in snapshot order, each as often as there. */
  lemma SectionInOrder(room: Room, a: seq<Device>, b: seq<Device>)
    ensures |a| == 1 ==> SectionOf(room, a).devices == if a[0].id in room.devices then a else []
    ensures SectionOf(room, a + b).devices == SectionOf(room, a).devices + SectionOf(room, b).devices
  {
    DevicesWithIdsInOrder(room.devices, a, b);
  }

  predicate NonEmpty(s: Section) {
    s.devices != []
  }

  /** `data.rooms.map(...)` before empty rooms are dropped: one section per room. */
  function AllSections(rooms: seq<Room>, devices: seq<Device>): (r: seq<Section>)
    ensures |r| == |rooms|
    ensures forall i :: 0 <= i < |rooms| ==> r[i] == SectionOf(rooms[i], devices)
  {
    seq(|rooms|, i requires 0 <= i < |rooms| => SectionOf(rooms[i], devices))
  }

  /** `data.rooms.map(room => ...)`, where a room without a known device renders nothing. */
  function RoomSections(rooms: seq<Room>, devices: seq<Device>): (r: seq<Section>)
    ensures |r| <= |rooms|
    ensures forall s :: s in r <==> (exists room :: room in rooms && s == SectionOf(room, devices)) && NonEmpty(s)
  {
    var all := AllSections(rooms, devices);
    assert forall s :: s in all <==> exists room :: room in rooms && s == SectionOf(room, devices) by {
      forall s | s in all ensures exists room :: room in rooms && s == SectionOf(room, devices) {
        var i :| 0 <= i < |all| && all[i] == s;
        assert rooms[i] in rooms;
      }
      forall room | room in rooms ensures SectionOf(room, devices) in all {
        var i :| 0 <= i < |rooms| && rooms[i] == room;
        assert all[i] == SectionOf(room, devices);
      }
    }
    Filter(all, NonEmpty)
  }

  /** The sections follow `data.rooms`: a single room gives its section exactly when it
      holds a known device, and a concatenation of rooms gives the sections of each part
      in turn. */
  lemma RoomSectionsInOrder(a: seq<Room>, b: seq<Room>, devices: seq<Device>)
    ensures |a| == 1 ==>
      RoomSections(a, devices) == if NonEmpty(SectionOf(a[0], devices)) then [SectionOf(a[0], devices)] else []
    ensures RoomSections(a + b, devices) == RoomSections(a, devices) + RoomSections(b, devices)
  {
    assert AllSections(a + b, devices) == AllSections(a, devices) + AllSections(b, devices);
    FilterAppend(AllSections(a, devices), AllSections(b, devices), NonEmpty);
    if |a| == 1 {
      assert AllSections(a, devices) == [SectionOf(a[0], devices)];
    }
  }

  /** `new Set(data.rooms.flatMap(r => r.devices))`. */
  function AssignedIds(rooms: seq<Room>): (r: set<string>)
    ensures forall id :: id in r <==> exists room :: room in rooms && id in room.devices
  {
    set room, id | room in rooms && id in room.devices :: id
  }

  /** `data.devices.filter(d => !assignedIds.has(d.id))`. */
  function Unassigned(rooms: seq<Room>, devices: seq<Device>): (r: seq<Device>)
    ensures |r| <= |devices|
    ensures forall d :: d in r <==> d in devices && forall room :: room in rooms ==> d.id !in room.devices
  {
    var ids := AssignedIds(rooms);
    Filter(devices, (d: Device) => d.id !in ids)
  }

  /** `data.rooms.length === 0 && data.devices.length > 0`. */
  predicate ShowFlatList(rooms: seq<Room>, devices: seq<Device>) {
    |rooms| == 0 && |devices| > 0
  }

  datatype DashboardView = DashboardView(
    roomCount: nat,
    deviceCount: nat,
    scenarios: seq<Scenario>,
    flatList: Option<seq<Device>>,
    sections: seq<Section>,
    unassigned: Option<seq<Device>>)

  /** The dashboard for a snapshot. */
  function View(data: UserInfo): (r: DashboardView)
    ensures r.roomCount == |data.rooms| && r.deviceCount == |data.devices|
    ensures r.scenarios == ActiveScenarios(data.scenarios)
    ensures r.flatList.Some? <==> ShowFlatList(data.rooms, data.devices)
    ensures r.flatList.Some? ==> r.flatList.value == data.devices
    ensures r.sections == RoomSections(data.rooms, data.devices)
    ensures r.unassigned.Some? <==> Unassigned(data.rooms, data.devices) != []
    ensures r.unassigned.Some? ==> r.unassigned.value == Unassigned(data.rooms, data.devices)
  {
    var loose := Unassigned(data.rooms, data.devices);
    DashboardView(
      |data.rooms|,
      |data.devices|,
      ActiveScenarios(data.scenarios),
      if ShowFlatList(data.rooms, data.devices) then Some(data.devices) else None,
      RoomSections(data.rooms, data.devices),
      if loose != [] then Some(loose) else None)
  }

  /** The devices a view shows outside the flat list. */
  predicate ShownInSection(v: DashboardView, d: Device) {
    (exists s :: s in v.sections && d in s.devices) || (v.unassigned.Some? && d in v.unassigned.value)
  }

  /** Every device of the snapshot appears in a room section or in the "no room"
      section. */
  lemma EveryDeviceShown(data: UserInfo, d: Device)
    requires d in data.devices
    ensures ShownInSection(View(data), d)
  {
    var v := View(data);
    if room :| room in data.rooms && d.id in room.devices {
      var s := SectionOf(room, data.devices);
      assert d in s.devices;
      assert s in v.sections;
    } else {
      assert d in Unassigned(data.rooms, data.devices);
    }
  }

  /** No device is both in a room section and in the "no room" section. */
  lemma UnassignedDisjoint(data: UserInfo, d: Device)
    requires d in Unassigned(data.rooms, data.devices)
    ensures forall s :: s in RoomSections(data.rooms, data.devices) ==> d !in s.devices
  {
    forall s | s in RoomSections(data.rooms, data.devices) ensures d !in s.devices {
      var room :| room in data.rooms && s == SectionOf(room, data.devices);
      assert d.id !in room.devices;
    }
  }

  /** With no rooms at all, the flat list and the "no room" section both show every
      device, so each device is rendered twice. */
  lemma NoRoomsShowsDevicesTwice(data: UserInfo)
    requires |data.rooms| == 0 && |data.devices| > 0
    ensures View(data).flatList == Some(data.devices)
    ensures View(data).sections == []
    ensures View(data).unassigned.Some?
    ensures forall d :: d in View(data).unassigned.value <==> d in data.devices
  {
    assert data.devices[0] in Unassigned(data.rooms, data.devices);
    assert RoomSections(data.rooms, data.devices) == [];
  }
}
