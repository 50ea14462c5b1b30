/**
 * Lookups that several components repeat with the same expression: `Array.prototype.find`
 * and `filter`, the `on_off` capability and its "is exactly `true`" test, the
 * `range` capability of a given instance, and the `mode` capability of a given instance
 * with its current value and its list of modes.
 */
module Lookup {
  import opened Types

  /** `s.find(p)`: the first element satisfying `p`, if any. */
  function Find<T>(s: seq<T>, p: T -> bool): (r: Option<T>)
    ensures r.None? <==> forall i :: 0 <= i < |s| ==> !p(s[i])
    ensures r.Some? ==> exists i :: 0 <= i < |s| && s[i] == r.value && p(s[i]) && forall j :: 0 <= j < i ==> !p(s[j])
    decreases |s|
  {
    if |s| == 0 then None
    else if p(s[0]) then Some(s[0])
    else
      var r := Find(s[1..], p);
      assert forall i :: 1 <= i < |s| ==> s[i] == s[1..][i - 1];
      r
  }

  /** `s.filter(p)`. */
  function Filter<T(!new)>(s: seq<T>, p: T -> bool): (r: seq<T>)
    ensures |r| <= |s|
    ensures forall x :: x in r <==> x in s && p(x)
    decreases |s|
  {
    if |s| == 0 then []
    else
      var rest := Filter(s[1..], p);
      assert forall x :: x in s <==> x == s[0] || x in s[1..];
      if p(s[0]) then [s[0]] + rest else rest
  }

  /** Filtering distributes over concatenation: it keeps the input order. */
  lemma {:induction false} FilterAppend<T(!new)>(a: seq<T>, b: seq<T>, p: T -> bool)
    ensures Filter(a + b, p) == Filter(a, p) + Filter(b, p)
    decreases |a|
  {
    if |a| > 0 {
      assert (a + b)[1..] == a[1..] + b;
      FilterAppend(a[1..], b, p);
    } else {
      assert a + b == b;
    }
  }

  /** Filtering keeps every element exactly when every element passes (`every`). */
  lemma {:induction false} FilterKeepsAll<T(!new)>(s: seq<T>, p: T -> bool)
    ensures |Filter(s, p)| == |s| <==> forall i :: 0 <= i < |s| ==> p(s[i])
    decreases |s|
  {
    if |s| > 0 {
      FilterKeepsAll(s[1..], p);
      assert forall i :: 1 <= i < |s| ==> s[i] == s[1..][i - 1];
    }
  }

  /** The head of a filtered list is the first element found: `s.filter(p)[0]` is
      `s.find(p)`, and the filtered list is empty exactly when nothing is found. */
  lemma {:induction false} FilterHeadIsFind<T(!new)>(s: seq<T>, p: T -> bool)
    ensures Filter(s, p) == [] <==> Find(s, p).None?
    ensures Filter(s, p) != [] ==> Filter(s, p)[0] == Find(s, p).value
    decreases |s|
  {
    if |s| > 0 && !p(s[0]) {
      FilterHeadIsFind(s[1..], p);
    }
  }

  /** Searching a filtered list is searching the whole list for both conditions at once. */
  lemma {:induction false} FindAfterFilter<T(!new)>(s: seq<T>, p: T -> bool, q: T -> bool, pq: T -> bool)
    requires forall x :: pq(x) == (p(x) && q(x))
    ensures Find(Filter(s, p), q) == Find(s, pq)
    decreases |s|
  {
    if |s| > 0 {
      FindAfterFilter(s[1..], p, q, pq);
      if p(s[0]) {
        assert Filter(s, p)[1..] == Filter(s[1..], p);
      }
    }
  }

  /** `devices.filter(d => ids.includes(d.id))`: the devices listed by id, in device order. */
  function DevicesWithIds(ids: seq<string>, devices: seq<Device>): (r: seq<Device>)
    ensures |r| <= |devices|
    ensures forall d :: d in r <==> d in devices && d.id in ids
  {
    Filter(devices, (d: Device) => d.id in ids)
  }

  /** The listed devices keep the device-list order, each as often as there: a one-device
      list keeps its device exactly when it is listed, and a concatenation selects from
      each part in turn. */
  lemma DevicesWithIdsInOrder(ids: seq<string>, a: seq<Device>, b: seq<Device>)
    ensures |a| == 1 ==> DevicesWithIds(ids, a) == if a[0].id in ids then a else []
    ensures DevicesWithIds(ids, a + b) == DevicesWithIds(ids, a) + DevicesWithIds(ids, b)
  {
    FilterAppend(a, b, (d: Device) => d.id in ids);
  }

  predicate IsOnOff(c: Capability) {
    c.kind == ON_OFF
  }

  /** `caps.find(c => c.type === 'devices.capabilities.on_off')`. */
  function OnOffCapability(caps: seq<Capability>): (r: Option<Capability>)
    ensures r.Some? <==> exists c :: c in caps && IsOnOff(c)
    ensures r.Some? ==> r.value in caps && IsOnOff(r.value)
  {
    Find(caps, IsOnOff)
  }

  /** The capability at `i` is the `on_off` one found when no earlier capability is. */
  lemma FirstOnOffAt(caps: seq<Capability>, i: nat)
    requires i < |caps| && IsOnOff(caps[i]) && forall j :: 0 <= j < i ==> !IsOnOff(caps[j])
    ensures OnOffCapability(caps) == Some(caps[i])
  {
    var r := Find(caps, IsOnOff);
    assert r.Some?;
    var k :| 0 <= k < |caps| && caps[k] == r.value && IsOnOff(caps[k]) && forall j :: 0 <= j < k ==> !IsOnOff(caps[j]);
    assert k == i;
  }

  /** The position of the first `on_off` capability, when there is one. */
  lemma FirstOnOffIndex(caps: seq<Capability>) returns (i: nat)
    requires OnOffCapability(caps).Some?
    ensures i < |caps| && IsOnOff(caps[i]) && forall j :: 0 <= j < i ==> !IsOnOff(caps[j])
  {
    i :| 0 <= i < |caps| && caps[i] == Find(caps, IsOnOff).value && IsOnOff(caps[i])
      && forall j :: 0 <= j < i ==> !IsOnOff(caps[j]);
  }

  /** `onOffCapability?.state?.value === true`. */
  predicate OnOffIsTrue(caps: seq<Capability>) {
    var c := OnOffCapability(caps);
    c.Some? && c.value.state.Some? && c.value.state.value.value == BoolV(true)
  }

  /** Only the first `on_off` capability decides, and only a boolean `true` counts. */
  lemma OnOffIsTrueIff(caps: seq<Capability>)
    ensures OnOffIsTrue(caps) <==>
      exists i :: 0 <= i < |caps| && IsOnOff(caps[i])
        && (forall j :: 0 <= j < i ==> !IsOnOff(caps[j]))
        && caps[i].state.Some? && caps[i].state.value.value == BoolV(true)
  {
    var r := Find(caps, IsOnOff);
    if r.Some? {
      var i :| 0 <= i < |caps| && caps[i] == r.value && IsOnOff(caps[i]) && forall j :: 0 <= j < i ==> !IsOnOff(caps[j]);
      FirstIndexUnique(caps, i);
    }
  }

  /** Only one position holds the first `on_off` capability. */
  lemma FirstIndexUnique(caps: seq<Capability>, i: nat)
    requires i < |caps| && IsOnOff(caps[i]) && forall j :: 0 <= j < i ==> !IsOnOff(caps[j])
    ensures forall k :: 0 <= k < |caps| && IsOnOff(caps[k]) && (forall j :: 0 <= j < k ==> !IsOnOff(caps[j])) ==> k == i
  {
  }

  predicate HasInstance(c: Capability, instance: string) {
    c.parameters.Some? && c.parameters.value.instance == Some(instance)
  }

  /** A `range` capability whose `parameters.instance` is `instance`. */
  predicate IsRangeOf(c: Capability, instance: string) {
    c.kind == RANGE && HasInstance(c, instance)
  }

  /** `caps.find(c => c.type === 'devices.capabilities.range' && c.parameters?.instance === instance)`:
      the first capability in list order that qualifies. */
  function RangeCapability(caps: seq<Capability>, instance: string): (r: Option<Capability>)
    ensures r.Some? ==> r.value in caps && IsRangeOf(r.value, instance)
    ensures r.Some? ==>
      exists i :: 0 <= i < |caps| && caps[i] == r.value && forall j :: 0 <= j < i ==> !IsRangeOf(caps[j], instance)
    ensures r.None? <==> forall c :: c in caps ==> !IsRangeOf(c, instance)
  {
    Find(caps, (c: Capability) => IsRangeOf(c, instance))
  }

  /** The `parameters.range` of an optional capability, if both are present. */
  function RangeOf(c: Option<Capability>): Option<Range> {
    if c.Some? && c.value.parameters.Some? then c.value.parameters.value.range else None
  }

  /** The initial range and value of a `range` slider (the brightness of one device, a
      thermostat's temperature): none without a range; otherwise the state's number, or
      the bottom of the range when the state holds no number. */
  function RangeStart(caps: seq<Capability>, instance: string): (r: (Option<Range>, Option<int>))
    ensures r.0 == RangeOf(RangeCapability(caps, instance))
    ensures r.1.Some? <==> r.0.Some?
    ensures r.1.Some? ==> var c := RangeCapability(caps, instance).value;
      if c.state.Some? && c.state.value.value.NumV? then r.1.value == c.state.value.value.n else r.1.value == r.0.value.min
  {
    var cap := RangeCapability(caps, instance);
    var range := RangeOf(cap);
    if range.None? then (None, None)
    else if cap.value.state.Some? && cap.value.state.value.value.NumV? then (range, Some(cap.value.state.value.value.n))
    else (range, Some(range.value.min))
  }

  /** A `mode` capability whose `parameters.instance` is `instance`. */
  predicate IsModeOf(c: Capability, instance: string) {
    c.kind == MODE && HasInstance(c, instance)
  }

  /** `findCapabilityByInstance(instance)`: the first `mode` capability whose
      `parameters.instance` is `instance`. */
  function ModeCapabilityByInstance(caps: seq<Capability>, instance: string): (r: Option<Capability>)
    ensures r.Some? ==> r.value in caps && IsModeOf(r.value, instance)
    ensures r.None? <==> forall c :: c in caps ==> !IsModeOf(c, instance)
    decreases |caps|
  {
    if |caps| == 0 then None
    else if IsModeOf(caps[0], instance) then Some(caps[0])
    else ModeCapabilityByInstance(caps[1..], instance)
  }

  /** The lookup finds the first capability that is a `mode` capability of the instance. */
  lemma {:induction false} ModeCapabilityIsFind(caps: seq<Capability>, instance: string)
    ensures ModeCapabilityByInstance(caps, instance) == Find(caps, (c: Capability) => IsModeOf(c, instance))
    decreases |caps|
  {
    if |caps| > 0 && !IsModeOf(caps[0], instance) {
      ModeCapabilityIsFind(caps[1..], instance);
    }
  }

  /** The source's two steps, `modeCapabilities = caps.filter(...)` and then
      `modeCapabilities.find(...)`, give the same capability as the lookup. */
  lemma ModeCapabilityIsFilterFind(caps: seq<Capability>, instance: string)
    ensures ModeCapabilityByInstance(caps, instance)
         == Find(Filter(caps, (c: Capability) => c.kind == MODE), (c: Capability) => HasInstance(c, instance))
  {
    ModeCapabilityIsFind(caps, instance);
    FindAfterFilter(caps, (c: Capability) => c.kind == MODE, (c: Capability) => HasInstance(c, instance),
      (c: Capability) => IsModeOf(c, instance));
  }

  /** `getCurrentValue(instance)`: `(cap.state.value as string) || ''`; the cast is only
      a type assertion, so a truthy value of any kind is returned as it is. */
  function CurrentModeValue(caps: seq<Capability>, instance: string): (r: Value)
    ensures ValueTruthy(r) ==> var c := ModeCapabilityByInstance(caps, instance);
      c.Some? && c.value.state.Some? && c.value.state.value.value == r
    ensures !ValueTruthy(r) ==> r == StrV("")
    ensures var c := ModeCapabilityByInstance(caps, instance);
      c.Some? && c.value.state.Some? && ValueTruthy(c.value.state.value.value) ==> r == c.value.state.value.value
  {
    var cap := ModeCapabilityByInstance(caps, instance);
    if cap.Some? && cap.value.state.Some? && ValueTruthy(cap.value.state.value.value)
    then cap.value.state.value.value
    else StrV("")
  }

  /** `getModes(cap)`: `parameters.modes` when it is an array, otherwise `[]`. */
  function Modes(cap: Option<Capability>): (r: seq<ModeOption>)
    ensures r != [] ==> cap.Some? && cap.value.parameters.Some? && cap.value.parameters.value.modes == Some(r)
    ensures cap.Some? && cap.value.parameters.Some? && cap.value.parameters.value.modes.Some? ==>
      r == cap.value.parameters.value.modes.value
  {
    if cap.Some? && cap.value.parameters.Some? && cap.value.parameters.value.modes.Some?
    then cap.value.parameters.value.modes.value
    else []
  }
}
