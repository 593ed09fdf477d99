/**
 * XInput2 events (the XInput Extension, version 2): the native structures
 * `XGetEventData` attaches to a generic event cookie, the wrapper's decoded
 * payloads, the valuator-mask pairing of device and raw events, and the
 * device-class decoder.
 */
module XInputEvents {
  import opened Wrappers
  import opened Native
  import Atom
  import Window
  import Input
  import opened EventEnums
  import CoreEvents

  // ---------------------------------------------------------------------
  // Event sub-types (XI2.h)
  // ---------------------------------------------------------------------

  const XI_DEVICE_CHANGED: int := 1
  const XI_KEY_PRESS: int := 2
  const XI_KEY_RELEASE: int := 3
  const XI_BUTTON_PRESS: int := 4
  const XI_BUTTON_RELEASE: int := 5
  const XI_MOTION: int := 6
  const XI_ENTER: int := 7
  const XI_LEAVE: int := 8
  const XI_FOCUS_IN: int := 9
  const XI_FOCUS_OUT: int := 10
  const XI_HIERARCHY_CHANGED: int := 11
  const XI_PROPERTY_EVENT: int := 12
  const XI_RAW_KEY_PRESS: int := 13
  const XI_RAW_KEY_RELEASE: int := 14
  const XI_RAW_BUTTON_PRESS: int := 15
  const XI_RAW_BUTTON_RELEASE: int := 16
  const XI_RAW_MOTION: int := 17
  const XI_TOUCH_BEGIN: int := 18
  const XI_TOUCH_UPDATE: int := 19
  const XI_TOUCH_END: int := 20
  const XI_TOUCH_OWNERSHIP: int := 21
  const XI_RAW_TOUCH_BEGIN: int := 22
  const XI_RAW_TOUCH_UPDATE: int := 23
  const XI_RAW_TOUCH_END: int := 24
  const XI_BARRIER_HIT: int := 25
  const XI_BARRIER_LEAVE: int := 26

  /** The sub-types carrying an `XIDeviceEvent`. */
  predicate IsDeviceEventType(evtype: int) {
    evtype == XI_KEY_PRESS || evtype == XI_KEY_RELEASE || evtype == XI_BUTTON_PRESS || evtype == XI_BUTTON_RELEASE
    || evtype == XI_MOTION || evtype == XI_TOUCH_BEGIN || evtype == XI_TOUCH_UPDATE || evtype == XI_TOUCH_END
  }

  /** The sub-types carrying an `XIRawEvent`. */
  predicate IsRawEventType(evtype: int) {
    evtype == XI_RAW_KEY_PRESS || evtype == XI_RAW_KEY_RELEASE || evtype == XI_RAW_BUTTON_PRESS
    || evtype == XI_RAW_BUTTON_RELEASE || evtype == XI_RAW_MOTION || evtype == XI_RAW_TOUCH_BEGIN
    || evtype == XI_RAW_TOUCH_UPDATE || evtype == XI_RAW_TOUCH_END
  }

  /** The sub-types carrying an `XIEnterEvent` (enter, leave and focus). */
  predicate IsFocusEventType(evtype: int) {
    evtype == XI_ENTER || evtype == XI_LEAVE || evtype == XI_FOCUS_IN || evtype == XI_FOCUS_OUT
  }

  /** The sub-types the wrapper decodes; any other one becomes `Unknown`. */
  predicate IsKnownEventType(evtype: int) {
    XI_DEVICE_CHANGED <= evtype <= XI_BARRIER_LEAVE
  }

  // ---------------------------------------------------------------------
  // Valuator masks
  // ---------------------------------------------------------------------

  /** `1 << j` as a byte, for the eight bit positions of a mask byte. */
  function BitOf(j: nat): bv8
    requires j < 8
  {
    if j == 0 then 0x01
    else if j == 1 then 0x02
    else if j == 2 then 0x04
    else if j == 3 then 0x08
    else if j == 4 then 0x10
    else if j == 5 then 0x20
    else if j == 6 then 0x40
    else 0x80
  }

  lemma BitOfIsShift(j: nat)
    requires j < 8
    ensures BitOf(j) == (1 as bv8) << (j as bv8)
  {
  }

  /** `XIMaskIsSet`: bit `i` of a mask is bit `i mod 8` of byte `i div 8`. */
  predicate MaskIsSet(mask: seq<bv8>, i: nat)
    requires i < 8 * |mask|
  {
    mask[i / 8] & BitOf(i % 8) != 0
  }

  /** The mask as one flag per bit, bit `i` at index `i`. */
  function MaskBits(mask: seq<bv8>): (r: seq<bool>)
    ensures |r| == 8 * |mask|
    ensures forall i :: 0 <= i < |r| ==> r[i] == MaskIsSet(mask, i)
  {
    seq(8 * |mask|, i requires 0 <= i < 8 * |mask| => MaskIsSet(mask, i))
  }

  /** The indices of the set flags from `i` on, in ascending order: the reference the pairing is checked against. */
  function SetBitsFrom(bits: seq<bool>, i: nat): seq<nat>
    decreases |bits| - i
  {
    if i >= |bits| then []
    else (if bits[i] then [i] else []) + SetBitsFrom(bits, i + 1)
  }

  /** Every set bit among the first `8 * |mask|`, ascending. */
  function SetBits(mask: seq<bv8>): seq<nat> {
    SetBitsFrom(MaskBits(mask), 0)
  }

  /** Every index `SetBitsFrom` lists is a set flag at or after `i`. */
  lemma {:induction false} SetBitsFromSound(bits: seq<bool>, i: nat)
    ensures forall j :: j in SetBitsFrom(bits, i) ==> i <= j < |bits| && bits[j]
    decreases |bits| - i
  {
    if i < |bits| {
      SetBitsFromSound(bits, i + 1);
      var tail := SetBitsFrom(bits, i + 1);
      if bits[i] {
        assert SetBitsFrom(bits, i) == [i] + tail;
        forall j | j in SetBitsFrom(bits, i)
          ensures i <= j < |bits| && bits[j]
        {
          if j != i {
            assert j in tail;
          }
        }
      } else {
        assert SetBitsFrom(bits, i) == tail;
      }
    }
  }

  /** Every set flag at or after `i` is listed by `SetBitsFrom`. */
  lemma {:induction false} SetBitsFromComplete(bits: seq<bool>, i: nat)
    ensures forall j: nat :: i <= j < |bits| && bits[j] ==> j in SetBitsFrom(bits, i)
    decreases |bits| - i
  {
    if i < |bits| {
      SetBitsFromComplete(bits, i + 1);
      var tail := SetBitsFrom(bits, i + 1);
      var head: seq<nat> := if bits[i] then [i] else [];
      assert SetBitsFrom(bits, i) == head + tail;
      forall j: nat | i <= j < |bits| && bits[j]
        ensures j in SetBitsFrom(bits, i)
      {
        if j == i {
          assert j in head;
        } else {
          assert j in tail;
        }
      }
    }
  }

  /** `SetBitsFrom` is strictly ascending, so it lists each bit once, lowest first. */
  lemma {:induction false} SetBitsFromAscending(bits: seq<bool>, i: nat)
    ensures forall a, b :: 0 <= a < b < |SetBitsFrom(bits, i)| ==> SetBitsFrom(bits, i)[a] < SetBitsFrom(bits, i)[b]
    decreases |bits| - i
  {
    if i < |bits| {
      SetBitsFromAscending(bits, i + 1);
      SetBitsFromSound(bits, i + 1);
      var tail := SetBitsFrom(bits, i + 1);
      if bits[i] {
        var s := SetBitsFrom(bits, i);
        assert s == [i] + tail;
        forall a, b | 0 <= a < b < |s|
          ensures s[a] < s[b]
        {
          assert s[b] == tail[b - 1];
          if a == 0 {
            assert s[b] in tail;
          } else {
            assert s[a] == tail[a - 1];
          }
        }
      } else {
        assert SetBitsFrom(bits, i) == tail;
      }
    }
  }

  /** Bit membership in the whole mask, and the order of the listing. */
  lemma SetBitsExact(mask: seq<bv8>)
    ensures forall j: nat :: j in SetBits(mask) <==> j < 8 * |mask| && MaskIsSet(mask, j)
    ensures forall a, b :: 0 <= a < b < |SetBits(mask)| ==> SetBits(mask)[a] < SetBits(mask)[b]
  {
    var bits := MaskBits(mask);
    SetBitsFromSound(bits, 0);
    SetBitsFromComplete(bits, 0);
    SetBitsFromAscending(bits, 0);
  }

  /**
   * The loop of `XIDeviceEvent::new` from bit `i` on: walk the bits in
   * ascending order and, for every set one, take the value under the cursor
   * and advance it (`values` is what remains from the cursor on). The
   * native event carries one value per set bit, which the requires states.
   * The values taken are exactly the first ones, one per set bit.
   */
  function PairFrom(bits: seq<bool>, values: seq<Float64>, i: nat): (r: seq<Float64>)
    requires |SetBitsFrom(bits, i)| <= |values|
    ensures |r| == |SetBitsFrom(bits, i)|
    ensures r == values[..|r|]
    decreases |bits| - i
  {
    if i >= |bits| then []
    else if bits[i] then
      assert SetBitsFrom(bits, i) == [i] + SetBitsFrom(bits, i + 1);
      [values[0]] + PairFrom(bits, values[1..], i + 1)
    else
      PairFrom(bits, values, i + 1)
  }

  /** The valuator values of a device event: one per set bit, the k-th value paired with the k-th set bit. */
  function ValuatorValues(mask: seq<bv8>, values: seq<Float64>): (r: seq<Float64>)
    requires |SetBits(mask)| <= |values|
    ensures |r| == |SetBits(mask)|
    ensures forall k :: 0 <= k < |r| ==> r[k] == values[k]
  {
    PairFrom(MaskBits(mask), values, 0)
  }

  /**
   * The loop of `XIRawEvent::new` from bit `i` on: the accelerated and the
   * raw values are consumed in lockstep under one mask, so each list is the
   * single-array pairing of its own array.
   */
  function PairLockstepFrom(bits: seq<bool>, values: seq<Float64>, raws: seq<Float64>, i: nat): (r: (seq<Float64>, seq<Float64>))
    requires |SetBitsFrom(bits, i)| <= |values| && |SetBitsFrom(bits, i)| <= |raws|
    ensures r.0 == PairFrom(bits, values, i)
    ensures r.1 == PairFrom(bits, raws, i)
    decreases |bits| - i
  {
    if i >= |bits| then ([], [])
    else if bits[i] then
      assert SetBitsFrom(bits, i) == [i] + SetBitsFrom(bits, i + 1);
      var rest := PairLockstepFrom(bits, values[1..], raws[1..], i + 1);
      ([values[0]] + rest.0, [raws[0]] + rest.1)
    else
      PairLockstepFrom(bits, values, raws, i + 1)
  }

  /** Raw events: both lists hold one entry per set bit and are aligned index by index with the inputs. */
  lemma LockstepAligned(mask: seq<bv8>, values: seq<Float64>, raws: seq<Float64>)
    requires |SetBits(mask)| <= |values| && |SetBits(mask)| <= |raws|
    ensures |PairLockstepFrom(MaskBits(mask), values, raws, 0).0| == |PairLockstepFrom(MaskBits(mask), values, raws, 0).1| == |SetBits(mask)|
    ensures PairLockstepFrom(MaskBits(mask), values, raws, 0).0 == ValuatorValues(mask, values)
    ensures forall k :: 0 <= k < |SetBits(mask)| ==>
              PairLockstepFrom(MaskBits(mask), values, raws, 0).0[k] == values[k] && PairLockstepFrom(MaskBits(mask), values, raws, 0).1[k] == raws[k]
  {
  }

  // ---------------------------------------------------------------------
  // Native structures
  // ---------------------------------------------------------------------

  /** `XIModifierState`. */
  datatype RawModifierState = RawModifierState(base: int, latched: int, locked: int, effective: int)

  /** `XIAnyClassInfo` and the class structures it is cast to, as one record; `classType` selects the view. */
  datatype RawClassInfo = RawClassInfo(
    classType: int, sourceid: int,
    keycodes: seq<int>,
    labels: seq<int>, stateMask: seq<bv8>,
    number: int, valuatorLabel: int, min: Float64, max: Float64, value: Float64, resolution: int, valuatorMode: int,
    scrollType: int, increment: Float64, scrollFlags: int,
    touchMode: int, numTouches: int)

  /** `XIHierarchyInfo`. */
  datatype RawHierarchyInfo = RawHierarchyInfo(deviceid: int, attachment: int, usage: int, enabled: int, flags: int)

  datatype RawXIDeviceChanged = RawXIDeviceChanged(time: int, deviceid: int, sourceid: int, reason: int, classes: seq<RawClassInfo>)
  datatype RawXIDevice = RawXIDevice(
    time: int, deviceid: int, sourceid: int, detail: int, root: int, event: int, child: int,
    rootX: Float64, rootY: Float64, eventX: Float64, eventY: Float64, flags: int,
    buttons: seq<bv8>, valuatorMask: seq<bv8>, valuatorValues: seq<Float64>,
    mods: RawModifierState, group: RawModifierState)
  datatype RawXIRawEvent = RawXIRawEvent(
    time: int, deviceid: int, sourceid: int, detail: int, flags: int,
    valuatorMask: seq<bv8>, valuatorValues: seq<Float64>, rawValues: seq<Float64>)
  datatype RawXIHierarchy = RawXIHierarchy(time: int, flags: int, info: seq<RawHierarchyInfo>)
  datatype RawXITouchOwnership = RawXITouchOwnership(time: int, deviceid: int, sourceid: int, touchid: int, root: int, event: int, child: int, flags: int)
  datatype RawXIBarrier = RawXIBarrier(
    time: int, deviceid: int, sourceid: int, event: int, root: int,
    rootX: Float64, rootY: Float64, dx: Float64, dy: Float64, dtime: int, flags: int, barrier: int, eventid: int)
  datatype RawXIEnter = RawXIEnter(
    time: int, deviceid: int, sourceid: int, detail: int, root: int, event: int, child: int,
    rootX: Float64, rootY: Float64, eventX: Float64, eventY: Float64, mode: int, focus: int, sameScreen: int,
    buttons: seq<bv8>, mods: RawModifierState, group: RawModifierState)
  datatype RawXIProperty = RawXIProperty(time: int, deviceid: int, property: int, what: int)

  /** What the cookie's data pointer refers to after `XGetEventData`, one view per structure; `evtype` selects the view. */
  datatype CookieData = CookieData(
    deviceChanged: RawXIDeviceChanged, device: RawXIDevice, raw: RawXIRawEvent, hierarchy: RawXIHierarchy,
    touchOwnership: RawXITouchOwnership, barrier: RawXIBarrier, enter: RawXIEnter, property: RawXIProperty)

  // ---------------------------------------------------------------------
  // Decoded payloads
  // ---------------------------------------------------------------------

  datatype ModifierState = ModifierState(base: int, latched: int, locked: int, effective: int)

  datatype ClassInfo =
    | ButtonClass(source: Input.Device, labels: seq<Atom.Atom>, state: seq<bv8>)
    | KeyClass(source: Input.Device, keyCodes: seq<int>)
    | ValuatorClass(source: Input.Device, number: int, valuatorLabel: Option<Atom.Atom>, min: Float64, max: Float64, value: Float64, resolution: int, valuatorMode: ValuatorMode)
    | ScrollClass(source: Input.Device, number: int, scrollType: ScrollType, increment: Float64, scrollFlags: int)
    | TouchClass(source: Input.Device, touchMode: TouchMode, numTouches: int)

  datatype HierarchyInfo = HierarchyInfo(device: Input.Device, attachment: int, usage: int, enabled: bool, flags: int)

  datatype ValuatorState = ValuatorState(mask: seq<bv8>, values: seq<Float64>)

  datatype DeviceChangedEvent = DeviceChangedEvent(time: int, device: Input.Device, source: Input.Device, reason: DeviceChangeReason, classes: seq<ClassInfo>)
  datatype DeviceEvent = DeviceEvent(
    time: int, device: Input.Device, source: Input.Device, detail: int,
    root: Window.Window, event: Window.Window, child: Window.Window,
    rootX: Float64, rootY: Float64, eventX: Float64, eventY: Float64, flags: int,
    buttons: seq<bv8>, valuators: ValuatorState, modifiers: ModifierState, group: ModifierState)
  datatype RawValuatorEvent = RawValuatorEvent(time: int, device: Input.Device, source: Input.Device, detail: int, flags: int, valuators: ValuatorState, rawValues: seq<Float64>)
  datatype HierarchyEvent = HierarchyEvent(time: int, flags: int, info: seq<HierarchyInfo>)
  datatype TouchOwnershipEvent = TouchOwnershipEvent(time: int, device: Input.Device, source: Input.Device, touchId: int, root: Window.Window, event: Window.Window, child: Window.Window, flags: int)
  datatype BarrierEvent = BarrierEvent(
    time: int, device: Input.Device, source: Input.Device, event: Window.Window, root: Window.Window,
    rootX: Float64, rootY: Float64, dx: Float64, dy: Float64, dtime: int, flags: int, barrier: int, eventId: int)
  datatype FocusEvent = FocusEvent(
    time: int, device: Input.Device, source: Input.Device, detail: NotifyDetail,
    root: Window.Window, event: Window.Window, child: Window.Window,
    rootX: Float64, rootY: Float64, eventX: Float64, eventY: Float64, mode: FocusEventMode, focus: bool, sameScreen: bool,
    buttons: seq<bv8>, modifiers: ModifierState, group: ModifierState)
  datatype DevicePropertyEvent = DevicePropertyEvent(time: int, device: Input.Device, property: Atom.Atom, what: PropertyChange)

  // ---------------------------------------------------------------------
  // Device classes
  // ---------------------------------------------------------------------

  /** XIKeyClass, XIButtonClass, XIValuatorClass, XIScrollClass, XITouchClass. */
  const XI_KEY_CLASS: int := 0
  const XI_BUTTON_CLASS: int := 1
  const XI_VALUATOR_CLASS: int := 2
  const XI_SCROLL_CLASS: int := 3
  const XI_TOUCH_CLASS: int := 8

  /** A class the decoder does not panic on: a listed type whose enumerated field has a listed value. */
  predicate ValidClass(c: RawClassInfo) {
    if c.classType == XI_KEY_CLASS || c.classType == XI_BUTTON_CLASS then true
    else if c.classType == XI_VALUATOR_CLASS then IsValuatorMode(c.valuatorMode)
    else if c.classType == XI_SCROLL_CLASS then IsScrollType(c.scrollType)
    else if c.classType == XI_TOUCH_CLASS then IsTouchMode(c.touchMode)
    else false
  }

  /** The class type constant of a decoded class. */
  function ClassType(c: ClassInfo): int {
    match c
    case KeyClass(_, _) => XI_KEY_CLASS
    case ButtonClass(_, _, _) => XI_BUTTON_CLASS
    case ValuatorClass(_, _, _, _, _, _, _, _) => XI_VALUATOR_CLASS
    case ScrollClass(_, _, _, _, _) => XI_SCROLL_CLASS
    case TouchClass(_, _, _) => XI_TOUCH_CLASS
  }

  /**
   * `XIClassInfo::new`: the type tag selects the variant; labels are
   * wrapped atoms in order, the valuator label is `None` for atom 0, and the
   * touch count is read as `u32`.
   */
  function NewClassInfo(c: RawClassInfo, display: int): (r: ClassInfo)
    requires ValidClass(c)
    ensures ClassType(r) == c.classType
    ensures r.source == Input.FromId(c.sourceid, display)
    ensures r.ButtonClass? ==> |r.labels| == |c.labels| && forall k :: 0 <= k < |r.labels| ==> r.labels[k].id == c.labels[k]
    ensures r.ValuatorClass? ==> CoreEvents.AtomOrNone(r.valuatorLabel) == c.valuatorLabel && ValuatorModeToNative(r.valuatorMode) == c.valuatorMode
    ensures r.ScrollClass? ==> ScrollTypeToNative(r.scrollType) == c.scrollType
    ensures r.TouchClass? ==> TouchModeToNative(r.touchMode) == c.touchMode && 0 <= r.numTouches < TWO_32
    ensures r.KeyClass? ==> r.keyCodes == c.keycodes
    ensures r.ButtonClass? ==> (forall k :: 0 <= k < |r.labels| ==> r.labels[k].display == display) && r.state == c.stateMask
    ensures r.ValuatorClass? ==>
              && r.number == c.number && r.min == c.min && r.max == c.max && r.value == c.value && r.resolution == c.resolution
              && (r.valuatorLabel.Some? ==> CoreEvents.NamesAtom(r.valuatorLabel.value, c.valuatorLabel, display))
    ensures r.ScrollClass? ==> r.number == c.number && r.increment == c.increment && r.scrollFlags == c.scrollFlags
    ensures r.TouchClass? ==> (r.numTouches - c.numTouches) % TWO_32 == 0
  {
    var source := Input.FromId(c.sourceid, display);
    if c.classType == XI_KEY_CLASS then
      KeyClass(source, c.keycodes)
    else if c.classType == XI_BUTTON_CLASS then
      ButtonClass(source, seq(|c.labels|, k requires 0 <= k < |c.labels| => Atom.Atom(c.labels[k], display)), c.stateMask)
    else if c.classType == XI_VALUATOR_CLASS then
      ValuatorClass(source, c.number, CoreEvents.OptionalAtom(c.valuatorLabel, display), c.min, c.max, c.value, c.resolution,
                    ValuatorModeFromNative(c.valuatorMode))
    else if c.classType == XI_SCROLL_CLASS then
      ScrollClass(source, c.number, ScrollTypeFromNative(c.scrollType), c.increment, c.scrollFlags)
    else
      TouchClass(source, TouchModeFromNative(c.touchMode), WrapU32(c.numTouches))
  }

  // ---------------------------------------------------------------------
  // Constructors
  // ---------------------------------------------------------------------

  /** `XIModifierState::new`: each `int` is read as `u32`. */
  function NewModifierState(s: RawModifierState): (r: ModifierState)
    ensures 0 <= r.base < TWO_32 && (r.base - s.base) % TWO_32 == 0
    ensures 0 <= r.latched < TWO_32 && (r.latched - s.latched) % TWO_32 == 0
    ensures 0 <= r.locked < TWO_32 && (r.locked - s.locked) % TWO_32 == 0
    ensures 0 <= r.effective < TWO_32 && (r.effective - s.effective) % TWO_32 == 0
  {
    ModifierState(WrapU32(s.base), WrapU32(s.latched), WrapU32(s.locked), WrapU32(s.effective))
  }

  function NewHierarchyInfo(h: RawHierarchyInfo, display: int): (r: HierarchyInfo)
    ensures r.device.id == h.deviceid && r.device.display == display
    ensures r.attachment == h.attachment && r.usage == h.usage && r.flags == h.flags
    ensures r.enabled <==> h.enabled != 0
  {
    HierarchyInfo(Input.FromId(h.deviceid, display), h.attachment, h.usage, NonZero(h.enabled), h.flags)
  }

  /** `XIHierarchyEvent::new`: one info record per native one, in order. */
  function NewHierarchy(e: RawXIHierarchy, display: int): (r: HierarchyEvent)
    ensures r.time == e.time && r.flags == e.flags
    ensures |r.info| == |e.info|
    ensures forall k :: 0 <= k < |e.info| ==> r.info[k] == NewHierarchyInfo(e.info[k], display)
  {
    HierarchyEvent(e.time, e.flags, seq(|e.info|, k requires 0 <= k < |e.info| => NewHierarchyInfo(e.info[k], display)))
  }

  predicate ValidDeviceChanged(e: RawXIDeviceChanged) {
    IsDeviceChangeReason(e.reason) && forall k :: 0 <= k < |e.classes| ==> ValidClass(e.classes[k])
  }

  /** `XIDeviceChangedEvent::new`: one decoded class per native one, in order. */
  function NewDeviceChanged(e: RawXIDeviceChanged, display: int): (r: DeviceChangedEvent)
    requires ValidDeviceChanged(e)
    ensures r.time == e.time && r.device == Input.FromId(e.deviceid, display) && r.source == Input.FromId(e.sourceid, display)
    ensures ReasonToNative(r.reason) == e.reason
    ensures |r.classes| == |e.classes|
    ensures forall k :: 0 <= k < |e.classes| ==> r.classes[k] == NewClassInfo(e.classes[k], display)
  {
    DeviceChangedEvent(e.time, Input.FromId(e.deviceid, display), Input.FromId(e.sourceid, display), ReasonFromNative(e.reason),
                       seq(|e.classes| , k requires 0 <= k < |e.classes| => NewClassInfo(e.classes[k], display)))
  }

  predicate ValidDevice(e: RawXIDevice) {
    |SetBits(e.valuatorMask)| <= |e.valuatorValues|
  }

  /** `XIDeviceEvent::new`. */
  function NewDevice(e: RawXIDevice, display: int): (r: DeviceEvent)
    requires ValidDevice(e)
    ensures r.time == e.time && r.device == Input.FromId(e.deviceid, display) && r.source == Input.FromId(e.sourceid, display)
    ensures r.detail == e.detail
    ensures CoreEvents.NamesForeign(r.root, e.root, display) && CoreEvents.NamesForeign(r.event, e.event, display) && CoreEvents.NamesForeign(r.child, e.child, display)
    ensures r.rootX == e.rootX && r.rootY == e.rootY && r.eventX == e.eventX && r.eventY == e.eventY && r.flags == e.flags
    ensures r.buttons == e.buttons && r.modifiers == NewModifierState(e.mods) && r.group == NewModifierState(e.group)
    ensures r.valuators.mask == e.valuatorMask
    ensures |r.valuators.values| == |SetBits(e.valuatorMask)|
    ensures forall k :: 0 <= k < |r.valuators.values| ==> r.valuators.values[k] == e.valuatorValues[k]
  {
    DeviceEvent(e.time, Input.FromId(e.deviceid, display), Input.FromId(e.sourceid, display), e.detail,
                CoreEvents.ForeignWindow(e.root, display), CoreEvents.ForeignWindow(e.event, display), CoreEvents.ForeignWindow(e.child, display),
                e.rootX, e.rootY, e.eventX, e.eventY, e.flags, e.buttons,
                ValuatorState(e.valuatorMask, ValuatorValues(e.valuatorMask, e.valuatorValues)),
                NewModifierState(e.mods), NewModifierState(e.group))
  }

  predicate ValidRaw(e: RawXIRawEvent) {
    |SetBits(e.valuatorMask)| <= |e.valuatorValues| && |SetBits(e.valuatorMask)| <= |e.rawValues|
  }

  /** `XIRawEvent::new`. */
  function NewRaw(e: RawXIRawEvent, display: int): (r: RawValuatorEvent)
    requires ValidRaw(e)
    ensures r.time == e.time && r.device == Input.FromId(e.deviceid, display) && r.source == Input.FromId(e.sourceid, display)
    ensures r.detail == e.detail && r.flags == e.flags
    ensures r.valuators.mask == e.valuatorMask
    ensures |r.valuators.values| == |r.rawValues| == |SetBits(e.valuatorMask)|
    ensures forall k :: 0 <= k < |r.rawValues| ==> r.valuators.values[k] == e.valuatorValues[k] && r.rawValues[k] == e.rawValues[k]
  {
    var pairs := PairLockstepFrom(MaskBits(e.valuatorMask), e.valuatorValues, e.rawValues, 0);
    RawValuatorEvent(e.time, Input.FromId(e.deviceid, display), Input.FromId(e.sourceid, display), e.detail, e.flags,
                     ValuatorState(e.valuatorMask, pairs.0), pairs.1)
  }

  function NewTouchOwnership(e: RawXITouchOwnership, display: int): (r: TouchOwnershipEvent)
    ensures r.device.id == e.deviceid && r.source.id == e.sourceid && r.device.display == display && r.source.display == display
    ensures CoreEvents.NamesForeign(r.root, e.root, display) && CoreEvents.NamesForeign(r.event, e.event, display) && CoreEvents.NamesForeign(r.child, e.child, display)
    ensures r.time == e.time && r.touchId == e.touchid && r.flags == e.flags
  {
    TouchOwnershipEvent(e.time, Input.FromId(e.deviceid, display), Input.FromId(e.sourceid, display), e.touchid,
                        CoreEvents.ForeignWindow(e.root, display), CoreEvents.ForeignWindow(e.event, display), CoreEvents.ForeignWindow(e.child, display),
                        e.flags)
  }

  function NewBarrier(e: RawXIBarrier, display: int): (r: BarrierEvent)
    ensures r.device.id == e.deviceid && r.source.id == e.sourceid && r.device.display == display && r.source.display == display
    ensures CoreEvents.NamesForeign(r.event, e.event, display) && CoreEvents.NamesForeign(r.root, e.root, display)
    ensures r.time == e.time && r.rootX == e.rootX && r.rootY == e.rootY && r.dx == e.dx && r.dy == e.dy && r.dtime == e.dtime
    ensures r.flags == e.flags && r.barrier == e.barrier && r.eventId == e.eventid
  {
    BarrierEvent(e.time, Input.FromId(e.deviceid, display), Input.FromId(e.sourceid, display),
                 CoreEvents.ForeignWindow(e.event, display), CoreEvents.ForeignWindow(e.root, display),
                 e.rootX, e.rootY, e.dx, e.dy, e.dtime, e.flags, e.barrier, e.eventid)
  }

  predicate ValidEnter(e: RawXIEnter) {
    IsNotifyDetail(e.detail) && IsFocusEventMode(e.mode)
  }

  function NewFocus(e: RawXIEnter, display: int): (r: FocusEvent)
    requires ValidEnter(e)
    ensures r.device.id == e.deviceid && r.source.id == e.sourceid && r.device.display == display && r.source.display == display
    ensures CoreEvents.NamesForeign(r.root, e.root, display) && CoreEvents.NamesForeign(r.event, e.event, display) && CoreEvents.NamesForeign(r.child, e.child, display)
    ensures NotifyDetailToNative(r.detail) == e.detail && FocusModeToNative(r.mode) == e.mode
    ensures (r.focus <==> e.focus != 0) && (r.sameScreen <==> e.sameScreen != 0)
    ensures r.time == e.time && r.rootX == e.rootX && r.rootY == e.rootY && r.eventX == e.eventX && r.eventY == e.eventY
    ensures r.buttons == e.buttons && r.modifiers == NewModifierState(e.mods) && r.group == NewModifierState(e.group)
  {
    FocusEvent(e.time, Input.FromId(e.deviceid, display), Input.FromId(e.sourceid, display), NotifyDetailFromNative(e.detail),
               CoreEvents.ForeignWindow(e.root, display), CoreEvents.ForeignWindow(e.event, display), CoreEvents.ForeignWindow(e.child, display),
               e.rootX, e.rootY, e.eventX, e.eventY, FocusModeFromNative(e.mode), NonZero(e.focus), NonZero(e.sameScreen),
               e.buttons, NewModifierState(e.mods), NewModifierState(e.group))
  }

  function NewDeviceProperty(e: RawXIProperty, display: int): (r: DevicePropertyEvent)
    requires IsPropertyChange(e.what)
    ensures r.time == e.time && r.device.id == e.deviceid && r.device.display == display
    ensures CoreEvents.NamesAtom(r.property, e.property, display)
    ensures PropertyChangeToNative(r.what) == e.what
  {
    DevicePropertyEvent(e.time, Input.FromId(e.deviceid, display), Atom.Atom(e.property, display), PropertyChangeFromNative(e.what))
  }

  /** The cookie data can be converted without a panic and without reading past the native arrays, for the view `evtype` selects. */
  predicate ValidCookieData(evtype: int, d: CookieData) {
    if evtype == XI_DEVICE_CHANGED then ValidDeviceChanged(d.deviceChanged)
    else if IsDeviceEventType(evtype) then ValidDevice(d.device)
    else if IsRawEventType(evtype) then ValidRaw(d.raw)
    else if IsFocusEventType(evtype) then ValidEnter(d.enter)
    else if evtype == XI_PROPERTY_EVENT then IsPropertyChange(d.property.what)
    else true
  }
}
