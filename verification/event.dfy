/**
 * Event classification (`XEventData::new`, `new_generic`, `new_xinput2`)
 * and the event envelope (`XEvent::new`). A raw `XEvent` is a C union; it
 * is modelled as a record holding every view the decoder may read, and the
 * type tag selects the one it does read. The decoder classifies on three
 * levels: the fixed core codes (section 11 of the X Window System Protocol,
 * Events), the XFixes cursor-notify code relative to the event base the
 * display queried, and the XInput2 sub-types of a generic event whose
 * extension is the XInput2 opcode. Only the last level calls into Xlib
 * (`XGetEventData`, `XFreeEventData`); those calls are returned as a trace.
 */
module Event {
  import opened Wrappers
  import Atom
  import Window
  import Colormap
  import Display
  import EventEnums
  import opened CoreEvents
  import opened XInputEvents

  // ---------------------------------------------------------------------
  // Event codes (X.h, xfixes.h)
  // ---------------------------------------------------------------------

  const KEY_PRESS: int := 2
  const KEY_RELEASE: int := 3
  const BUTTON_PRESS: int := 4
  const BUTTON_RELEASE: int := 5
  const MOTION_NOTIFY: int := 6
  const ENTER_NOTIFY: int := 7
  const LEAVE_NOTIFY: int := 8
  const FOCUS_IN: int := 9
  const FOCUS_OUT: int := 10
  const KEYMAP_NOTIFY: int := 11
  const EXPOSE: int := 12
  const GRAPHICS_EXPOSE: int := 13
  const NO_EXPOSE: int := 14
  const VISIBILITY_NOTIFY: int := 15
  const CREATE_NOTIFY: int := 16
  const DESTROY_NOTIFY: int := 17
  const UNMAP_NOTIFY: int := 18
  const MAP_NOTIFY: int := 19
  const MAP_REQUEST: int := 20
  const REPARENT_NOTIFY: int := 21
  const CONFIGURE_NOTIFY: int := 22
  const CONFIGURE_REQUEST: int := 23
  const GRAVITY_NOTIFY: int := 24
  const RESIZE_REQUEST: int := 25
  const CIRCULATE_NOTIFY: int := 26
  const CIRCULATE_REQUEST: int := 27
  const PROPERTY_NOTIFY: int := 28
  const SELECTION_CLEAR: int := 29
  const SELECTION_REQUEST: int := 30
  const SELECTION_NOTIFY: int := 31
  const COLORMAP_NOTIFY: int := 32
  const CLIENT_MESSAGE: int := 33
  const MAPPING_NOTIFY: int := 34
  const GENERIC_EVENT: int := 35

  /** `XFixesCursorNotify`: the offset of the cursor-notify event from the XFixes event base. */
  const XFIXES_CURSOR_NOTIFY: int := 1

  /** The core codes the decoder has an arm for: every code from KeyPress to MappingNotify except GraphicsExpose, NoExpose and CreateNotify. */
  predicate IsCoreCode(t: int) {
    KEY_PRESS <= t <= MAPPING_NOTIFY && t != GRAPHICS_EXPOSE && t != NO_EXPOSE && t != CREATE_NOTIFY
  }

  // ---------------------------------------------------------------------
  // Raw events
  // ---------------------------------------------------------------------

  /** `XGenericEventCookie`: extension opcode, sub-type, cookie serial, and what `XGetEventData` attaches. */
  datatype RawCookie = RawCookie(extension: int, evtype: int, cookie: int, data: CookieData)

  /** `XEvent`: the type tag and every member of the union. */
  datatype RawEvent = RawEvent(
    eventType: int, any: RawAny,
    key: RawInput, button: RawInput, motion: RawInput, crossing: RawCrossing, focusChange: RawFocusChange,
    keymap: RawKeymap, expose: RawExpose, visibility: RawVisibility, destroyWindow: RawWindowRef,
    unmap: RawUnmap, mapNotify: RawMap, mapRequest: RawWindowRef, reparent: RawReparent,
    configure: RawConfigure, gravity: RawGravity, resizeRequest: RawResizeRequest,
    configureRequest: RawConfigureRequest, circulate: RawCirculate, circulateRequest: RawCirculate,
    property: RawProperty, selectionClear: RawSelectionClear, selectionRequest: RawSelectionRequest,
    selection: RawSelection, colormap: RawColormap, clientMessage: RawClientMessage, mapping: RawMapping,
    cursorNotify: RawCursorNotify, cookie: RawCookie)

  // ---------------------------------------------------------------------
  // Decoded events
  // ---------------------------------------------------------------------

  /** `XEventData`. */
  datatype EventData =
    | Motion(motion: MotionEvent)
    | KeyPress(key: KeyEvent)
    | KeyRelease(key: KeyEvent)
    | ButtonPress(button: ButtonEvent)
    | ButtonRelease(button: ButtonEvent)
    | ColormapChange(colormap: ColormapEvent)
    | EnterWindow(crossing: CrossingEvent)
    | LeaveWindow(crossing: CrossingEvent)
    | Expose(expose: ExposeEvent)
    | FocusIn(focusChange: FocusChangeEvent)
    | FocusOut(focusChange: FocusChangeEvent)
    | KeymapChange(keymap: KeymapEvent)
    | PropertyChange(property: PropertyEvent)
    | ResizeRequest(resizeRequest: ResizeRequestEvent)
    | Circulate(circulate: CirculateEvent)
    | Configure(configure: ConfigureEvent)
    | Destroy(destroyWindow: DestroyWindowEvent)
    | Gravity(gravity: GravityEvent)
    | Map(mapNotify: MapEvent)
    | Reparent(reparent: ReparentEvent)
    | Unmap(unmap: UnmapEvent)
    | CirculateRequest(circulateRequest: CirculateRequestEvent)
    | ConfigureRequest(configureRequest: ConfigureRequestEvent)
    | MapRequest(mapRequest: MapRequestEvent)
    | ClientMessage(clientMessage: ClientMessageEvent)
    | Mapping(mapping: MappingEvent)
    | SelectionClear(selectionClear: SelectionClearEvent)
    | Selection(selection: SelectionEvent)
    | SelectionRequest(selectionRequest: SelectionRequestEvent)
    | VisibilityChange(visibility: VisibilityEvent)
    | CursorChanged(cursor: DisplayCursorEvent)
    | XIHierarchyChanged(hierarchy: HierarchyEvent)
    | XIDeviceChanged(deviceChanged: DeviceChangedEvent)
    | XIKeyPressed(device: DeviceEvent)
    | XIKeyReleased(device: DeviceEvent)
    | XIButtonPressed(device: DeviceEvent)
    | XIButtonReleased(device: DeviceEvent)
    | XITouchBegin(device: DeviceEvent)
    | XITouchEnd(device: DeviceEvent)
    | XITouchUpdate(device: DeviceEvent)
    | XITouchOwnershipChanged(touchOwnership: TouchOwnershipEvent)
    | XIMotion(device: DeviceEvent)
    | XIRawKeyPressed(raw: RawValuatorEvent)
    | XIRawKeyReleased(raw: RawValuatorEvent)
    | XIRawButtonPressed(raw: RawValuatorEvent)
    | XIRawButtonReleased(raw: RawValuatorEvent)
    | XIRawTouchBegin(raw: RawValuatorEvent)
    | XIRawTouchEnd(raw: RawValuatorEvent)
    | XIRawTouchUpdated(raw: RawValuatorEvent)
    | XIRawMotion(raw: RawValuatorEvent)
    | XIBarrierHit(barrier: BarrierEvent)
    | XIBarrierLeft(barrier: BarrierEvent)
    | XIEntered(focus: FocusEvent)
    | XILeft(focus: FocusEvent)
    | XIFocusIn(focus: FocusEvent)
    | XIFocusOut(focus: FocusEvent)
    | XIPropertyChanged(deviceProperty: DevicePropertyEvent)
    | Unknown(native: RawEvent)

  /** The event type that produces each variant: the inverse of the classification. */
  function NativeType(d: EventData, c: Display.Display): int {
    match d
    case Motion(_) => MOTION_NOTIFY
    case KeyPress(_) => KEY_PRESS
    case KeyRelease(_) => KEY_RELEASE
    case ButtonPress(_) => BUTTON_PRESS
    case ButtonRelease(_) => BUTTON_RELEASE
    case ColormapChange(_) => COLORMAP_NOTIFY
    case EnterWindow(_) => ENTER_NOTIFY
    case LeaveWindow(_) => LEAVE_NOTIFY
    case Expose(_) => EXPOSE
    case FocusIn(_) => FOCUS_IN
    case FocusOut(_) => FOCUS_OUT
    case KeymapChange(_) => KEYMAP_NOTIFY
    case PropertyChange(_) => PROPERTY_NOTIFY
    case ResizeRequest(_) => RESIZE_REQUEST
    case Circulate(_) => CIRCULATE_NOTIFY
    case Configure(_) => CONFIGURE_NOTIFY
    case Destroy(_) => DESTROY_NOTIFY
    case Gravity(_) => GRAVITY_NOTIFY
    case Map(_) => MAP_NOTIFY
    case Reparent(_) => REPARENT_NOTIFY
    case Unmap(_) => UNMAP_NOTIFY
    case CirculateRequest(_) => CIRCULATE_REQUEST
    case ConfigureRequest(_) => CONFIGURE_REQUEST
    case MapRequest(_) => MAP_REQUEST
    case ClientMessage(_) => CLIENT_MESSAGE
    case Mapping(_) => MAPPING_NOTIFY
    case SelectionClear(_) => SELECTION_CLEAR
    case Selection(_) => SELECTION_NOTIFY
    case SelectionRequest(_) => SELECTION_REQUEST
    case VisibilityChange(_) => VISIBILITY_NOTIFY
    case CursorChanged(_) => c.xfixesEventBase + XFIXES_CURSOR_NOTIFY
    case Unknown(e) => e.eventType
    case _ => GENERIC_EVENT
  }

  /** The XInput2 sub-type that produces each XInput2 variant. */
  function XIType(d: EventData): Option<int> {
    match d
    case XIHierarchyChanged(_) => Some(XI_HIERARCHY_CHANGED)
    case XIDeviceChanged(_) => Some(XI_DEVICE_CHANGED)
    case XIKeyPressed(_) => Some(XI_KEY_PRESS)
    case XIKeyReleased(_) => Some(XI_KEY_RELEASE)
    case XIButtonPressed(_) => Some(XI_BUTTON_PRESS)
    case XIButtonReleased(_) => Some(XI_BUTTON_RELEASE)
    case XITouchBegin(_) => Some(XI_TOUCH_BEGIN)
    case XITouchEnd(_) => Some(XI_TOUCH_END)
    case XITouchUpdate(_) => Some(XI_TOUCH_UPDATE)
    case XITouchOwnershipChanged(_) => Some(XI_TOUCH_OWNERSHIP)
    case XIMotion(_) => Some(XI_MOTION)
    case XIRawKeyPressed(_) => Some(XI_RAW_KEY_PRESS)
    case XIRawKeyReleased(_) => Some(XI_RAW_KEY_RELEASE)
    case XIRawButtonPressed(_) => Some(XI_RAW_BUTTON_PRESS)
    case XIRawButtonReleased(_) => Some(XI_RAW_BUTTON_RELEASE)
    case XIRawTouchBegin(_) => Some(XI_RAW_TOUCH_BEGIN)
    case XIRawTouchEnd(_) => Some(XI_RAW_TOUCH_END)
    case XIRawTouchUpdated(_) => Some(XI_RAW_TOUCH_UPDATE)
    case XIRawMotion(_) => Some(XI_RAW_MOTION)
    case XIBarrierHit(_) => Some(XI_BARRIER_HIT)
    case XIBarrierLeft(_) => Some(XI_BARRIER_LEAVE)
    case XIEntered(_) => Some(XI_ENTER)
    case XILeft(_) => Some(XI_LEAVE)
    case XIFocusIn(_) => Some(XI_FOCUS_IN)
    case XIFocusOut(_) => Some(XI_FOCUS_OUT)
    case XIPropertyChanged(_) => Some(XI_PROPERTY_EVENT)
    case _ => None
  }

  /** A variant of the fixed core codes. */
  predicate IsCoreVariant(d: EventData) {
    !d.Unknown? && !d.CursorChanged? && XIType(d).None?
  }

  /** Every window a decoded payload holds. */
  function WindowsOf(d: EventData): seq<Window.Window> {
    match d
    case Motion(m) => [m.root, m.subwindow]
    case KeyPress(k) => [k.root, k.subwindow]
    case KeyRelease(k) => [k.root, k.subwindow]
    case ButtonPress(b) => [b.root, b.subwindow]
    case ButtonRelease(b) => [b.root, b.subwindow]
    case EnterWindow(x) => [x.root, x.subwindow]
    case LeaveWindow(x) => [x.root, x.subwindow]
    case Circulate(x) => [x.window]
    case Configure(x) => [x.window] + (if x.above.Some? then [x.above.value] else [])
    case Destroy(x) => [x.window]
    case Gravity(x) => [x.window]
    case Map(x) => [x.window]
    case Reparent(x) => [x.window, x.parent]
    case Unmap(x) => [x.window]
    case CirculateRequest(x) => [x.window]
    case ConfigureRequest(x) => [x.window, x.above]
    case MapRequest(x) => [x.window]
    case SelectionRequest(x) => [x.requestor]
    case XIKeyPressed(x) => [x.root, x.event, x.child]
    case XIKeyReleased(x) => [x.root, x.event, x.child]
    case XIButtonPressed(x) => [x.root, x.event, x.child]
    case XIButtonReleased(x) => [x.root, x.event, x.child]
    case XITouchBegin(x) => [x.root, x.event, x.child]
    case XITouchEnd(x) => [x.root, x.event, x.child]
    case XITouchUpdate(x) => [x.root, x.event, x.child]
    case XIMotion(x) => [x.root, x.event, x.child]
    case XITouchOwnershipChanged(x) => [x.root, x.event, x.child]
    case XIBarrierHit(x) => [x.event, x.root]
    case XIBarrierLeft(x) => [x.event, x.root]
    case XIEntered(x) => [x.root, x.event, x.child]
    case XILeft(x) => [x.root, x.event, x.child]
    case XIFocusIn(x) => [x.root, x.event, x.child]
    case XIFocusOut(x) => [x.root, x.event, x.child]
    case _ => []
  }

  /** Every colormap a decoded payload holds. */
  function ColormapsOf(d: EventData): seq<Colormap.Colormap> {
    if d.ColormapChange? then [d.colormap.colormap] else []
  }

  /** Nothing the decoder built for `display` is owned: dropping any of it releases nothing. */
  predicate AllForeign(d: EventData, display: int) {
    (forall w :: w in WindowsOf(d) ==> w.ownership == Window.Foreign && w.display == display)
    && (forall m :: m in ColormapsOf(d) ==> m.ownership == Colormap.Foreign && m.display == display)
  }

  // ---------------------------------------------------------------------
  // Foreign calls
  // ---------------------------------------------------------------------

  /** The steps the decoder takes on a cookie: the two Xlib calls, and the conversion of the data between them. */
  datatype Step =
    | XGetEventData(display: int, cookie: int)
    | Convert(evtype: int)
    | XFreeEventData(display: int, cookie: int)

  datatype Decoded = Decoded(data: EventData, trace: seq<Step>)

  /**
   * The release discipline: either no call at all, or one `XGetEventData`
   * first, one `XFreeEventData` of the same cookie last, and only
   * conversions in between.
   */
  predicate Balanced(t: seq<Step>) {
    t == []
    || (|t| >= 2 && t[0].XGetEventData? && t[|t| - 1].XFreeEventData?
        && t[0].display == t[|t| - 1].display && t[0].cookie == t[|t| - 1].cookie
        && forall k :: 0 < k < |t| - 1 ==> t[k].Convert?)
  }

  // ---------------------------------------------------------------------
  // Decoding
  // ---------------------------------------------------------------------

  /** The fields of a core event that the decoder's enumerations accept, for the view its type selects. */
  predicate CoreDecodable(e: RawEvent) {
    var t := e.eventType;
    (t == COLORMAP_NOTIFY ==> Colormap.IsColormapState(e.colormap.state))
    && (t == ENTER_NOTIFY || t == LEAVE_NOTIFY ==> EventEnums.IsNotifyDetail(e.crossing.detail))
    && (t == FOCUS_IN || t == FOCUS_OUT ==> EventEnums.IsNotifyMode(e.focusChange.mode) && EventEnums.IsNotifyDetail(e.focusChange.detail))
    && (t == PROPERTY_NOTIFY ==> EventEnums.IsPropertyState(e.property.state))
    && (t == CIRCULATE_NOTIFY ==> EventEnums.IsCirculatePlace(e.circulate.place))
    && (t == CIRCULATE_REQUEST ==> EventEnums.IsCirculatePlace(e.circulateRequest.place))
    && (t == CONFIGURE_REQUEST ==> EventEnums.IsConfigureDetail(e.configureRequest.detail))
    && (t == CLIENT_MESSAGE ==> IsClientFormat(e.clientMessage.format))
    && (t == MAPPING_NOTIFY ==> EventEnums.IsMappingRequestType(e.mapping.request))
    && (t == VISIBILITY_NOTIFY ==> EventEnums.IsVisibilityState(e.visibility.state))
  }

  /**
   * What the caller of `XEventData::new` must guarantee: no enumerated
   * field the selected arm decodes is out of range, and an XInput2 cookie
   * points at a structure of its sub-type with one value per set valuator
   * bit. The tag itself is unconstrained.
   */
  predicate Decodable(e: RawEvent, c: Display.Display) {
    var t := e.eventType;
    if IsCoreCode(t) then CoreDecodable(e)
    else if t == GENERIC_EVENT then
      e.cookie.extension == c.xinput2Opcode ==> ValidCookieData(e.cookie.evtype, e.cookie.data)
    else if t == c.xfixesEventBase + XFIXES_CURSOR_NOTIFY then EventEnums.IsCursorSubtype(e.cursorNotify.subtype)
    else true
  }

  /** The core arms for the input events, KeyPress to Expose. */
  function DecodeInputEvent(e: RawEvent, c: Display.Display): (r: EventData)
    requires KEY_PRESS <= e.eventType <= EXPOSE && CoreDecodable(e)
    ensures IsCoreVariant(r)
    ensures NativeType(r, c) == e.eventType
    ensures AllForeign(r, c.handle)
  {
    var t := e.eventType;
    var h := c.handle;
    if t == MOTION_NOTIFY then Motion(NewMotion(e.motion, h))
    else if t == BUTTON_PRESS then ButtonPress(NewButton(e.button, h))
    else if t == BUTTON_RELEASE then ButtonRelease(NewButton(e.button, h))
    else if t == ENTER_NOTIFY then EnterWindow(NewCrossing(e.crossing, h))
    else if t == LEAVE_NOTIFY then LeaveWindow(NewCrossing(e.crossing, h))
    else if t == EXPOSE then Expose(NewExpose(e.expose))
    else if t == FOCUS_IN then FocusIn(NewFocusChange(e.focusChange))
    else if t == FOCUS_OUT then FocusOut(NewFocusChange(e.focusChange))
    else if t == KEYMAP_NOTIFY then KeymapChange(NewKeymap(e.keymap))
    else if t == KEY_PRESS then KeyPress(NewKey(e.key, h))
    else KeyRelease(NewKey(e.key, h))
  }

  /** The core arms for the window-state events, VisibilityNotify to CirculateRequest. */
  function DecodeWindowEvent(e: RawEvent, c: Display.Display): (r: EventData)
    requires VISIBILITY_NOTIFY <= e.eventType <= CIRCULATE_REQUEST && e.eventType != CREATE_NOTIFY && CoreDecodable(e)
    ensures IsCoreVariant(r)
    ensures NativeType(r, c) == e.eventType
    ensures AllForeign(r, c.handle)
  {
    var t := e.eventType;
    var h := c.handle;
    if t == RESIZE_REQUEST then ResizeRequest(NewResizeRequest(e.resizeRequest))
    else if t == CIRCULATE_NOTIFY then Circulate(NewCirculate(e.circulate, h))
    else if t == CONFIGURE_NOTIFY then Configure(NewConfigure(e.configure, h))
    else if t == DESTROY_NOTIFY then Destroy(NewDestroyWindow(e.destroyWindow, h))
    else if t == GRAVITY_NOTIFY then Gravity(NewGravity(e.gravity, h))
    else if t == MAP_NOTIFY then Map(NewMap(e.mapNotify, h))
    else if t == REPARENT_NOTIFY then Reparent(NewReparent(e.reparent, h))
    else if t == UNMAP_NOTIFY then Unmap(NewUnmap(e.unmap, h))
    else if t == CIRCULATE_REQUEST then CirculateRequest(NewCirculateRequest(e.circulateRequest, h))
    else if t == CONFIGURE_REQUEST then ConfigureRequest(NewConfigureRequest(e.configureRequest, h))
    else if t == MAP_REQUEST then MapRequest(NewMapRequest(e.mapRequest, h))
    else VisibilityChange(NewVisibility(e.visibility))
  }

  /** The core arms for the inter-client events, PropertyNotify to MappingNotify. */
  function DecodeClientEvent(e: RawEvent, c: Display.Display): (r: EventData)
    requires PROPERTY_NOTIFY <= e.eventType <= MAPPING_NOTIFY && CoreDecodable(e)
    ensures IsCoreVariant(r)
    ensures NativeType(r, c) == e.eventType
    ensures AllForeign(r, c.handle)
  {
    var t := e.eventType;
    var h := c.handle;
    if t == COLORMAP_NOTIFY then ColormapChange(NewColormap(e.colormap, h))
    else if t == PROPERTY_NOTIFY then PropertyChange(NewProperty(e.property, h))
    else if t == CLIENT_MESSAGE then ClientMessage(NewClientMessage(e.clientMessage, h))
    else if t == MAPPING_NOTIFY then Mapping(NewMapping(e.mapping))
    else if t == SELECTION_CLEAR then SelectionClear(NewSelectionClear(e.selectionClear, h))
    else if t == SELECTION_NOTIFY then Selection(NewSelection(e.selection, h))
    else SelectionRequest(NewSelectionRequest(e.selectionRequest, h))
  }

  /** The core arms of `XEventData::new`: each code selects its union member and its payload constructor. */
  function DecodeCore(e: RawEvent, c: Display.Display): (r: EventData)
    requires IsCoreCode(e.eventType) && CoreDecodable(e)
    ensures IsCoreVariant(r)
    ensures NativeType(r, c) == e.eventType
    ensures AllForeign(r, c.handle)
  {
    if e.eventType <= EXPOSE then DecodeInputEvent(e, c)
    else if e.eventType <= CIRCULATE_REQUEST then DecodeWindowEvent(e, c)
    else DecodeClientEvent(e, c)
  }

  /** The variant `new_xinput2` wraps a converted pointer, key or touch event in. */
  function DeviceVariant(evtype: int, x: DeviceEvent): (r: EventData)
    requires IsDeviceEventType(evtype)
    ensures XIType(r) == Some(evtype)
    ensures WindowsOf(r) == [x.root, x.event, x.child] && ColormapsOf(r) == []
  {
    if evtype == XI_KEY_PRESS then XIKeyPressed(x)
    else if evtype == XI_KEY_RELEASE then XIKeyReleased(x)
    else if evtype == XI_BUTTON_PRESS then XIButtonPressed(x)
    else if evtype == XI_BUTTON_RELEASE then XIButtonReleased(x)
    else if evtype == XI_TOUCH_BEGIN then XITouchBegin(x)
    else if evtype == XI_TOUCH_END then XITouchEnd(x)
    else if evtype == XI_TOUCH_UPDATE then XITouchUpdate(x)
    else XIMotion(x)
  }

  /** The variant `new_xinput2` wraps a converted raw event in. */
  function RawVariant(evtype: int, x: RawValuatorEvent): (r: EventData)
    requires IsRawEventType(evtype)
    ensures XIType(r) == Some(evtype)
    ensures WindowsOf(r) == [] && ColormapsOf(r) == []
  {
    if evtype == XI_RAW_KEY_PRESS then XIRawKeyPressed(x)
    else if evtype == XI_RAW_KEY_RELEASE then XIRawKeyReleased(x)
    else if evtype == XI_RAW_BUTTON_PRESS then XIRawButtonPressed(x)
    else if evtype == XI_RAW_BUTTON_RELEASE then XIRawButtonReleased(x)
    else if evtype == XI_RAW_TOUCH_BEGIN then XIRawTouchBegin(x)
    else if evtype == XI_RAW_TOUCH_END then XIRawTouchEnd(x)
    else if evtype == XI_RAW_TOUCH_UPDATE then XIRawTouchUpdated(x)
    else XIRawMotion(x)
  }

  /** The variant `new_xinput2` wraps a converted crossing or focus event in. */
  function FocusVariant(evtype: int, x: FocusEvent): (r: EventData)
    requires IsFocusEventType(evtype)
    ensures XIType(r) == Some(evtype)
    ensures WindowsOf(r) == [x.root, x.event, x.child] && ColormapsOf(r) == []
  {
    if evtype == XI_ENTER then XIEntered(x)
    else if evtype == XI_LEAVE then XILeft(x)
    else if evtype == XI_FOCUS_IN then XIFocusIn(x)
    else XIFocusOut(x)
  }

  /** The conversion arms of `new_xinput2` for the sub-types it lists. */
  function DecodeXIPayload(evtype: int, d: CookieData, display: int): (r: EventData)
    requires IsKnownEventType(evtype) && ValidCookieData(evtype, d)
    ensures XIType(r) == Some(evtype)
    ensures AllForeign(r, display)
  {
    if IsDeviceEventType(evtype) then DeviceVariant(evtype, NewDevice(d.device, display))
    else if IsRawEventType(evtype) then RawVariant(evtype, NewRaw(d.raw, display))
    else if IsFocusEventType(evtype) then FocusVariant(evtype, NewFocus(d.enter, display))
    else DecodeXIOther(evtype, d, display)
  }

  /** The conversion arms of `new_xinput2` for the sub-types that have a structure of their own. */
  function DecodeXIOther(evtype: int, d: CookieData, display: int): (r: EventData)
    requires IsKnownEventType(evtype) && ValidCookieData(evtype, d)
    requires !IsDeviceEventType(evtype) && !IsRawEventType(evtype) && !IsFocusEventType(evtype)
    ensures XIType(r) == Some(evtype)
    ensures AllForeign(r, display)
  {
    if evtype == XI_TOUCH_OWNERSHIP then XITouchOwnershipChanged(NewTouchOwnership(d.touchOwnership, display))
    else if evtype == XI_BARRIER_HIT || evtype == XI_BARRIER_LEAVE then BarrierVariant(evtype, NewBarrier(d.barrier, display))
    else DecodeXIDeviceState(evtype, d, display)
  }

  /** The variant `new_xinput2` wraps a converted barrier event in. */
  function BarrierVariant(evtype: int, x: BarrierEvent): (r: EventData)
    requires evtype == XI_BARRIER_HIT || evtype == XI_BARRIER_LEAVE
    ensures XIType(r) == Some(evtype)
    ensures WindowsOf(r) == [x.event, x.root] && ColormapsOf(r) == []
  {
    if evtype == XI_BARRIER_HIT then XIBarrierHit(x) else XIBarrierLeft(x)
  }

  /** The conversion arms of `new_xinput2` for the device-state sub-types, which hold no window. */
  function DecodeXIDeviceState(evtype: int, d: CookieData, display: int): (r: EventData)
    requires evtype == XI_DEVICE_CHANGED || evtype == XI_HIERARCHY_CHANGED || evtype == XI_PROPERTY_EVENT
    requires ValidCookieData(evtype, d)
    ensures XIType(r) == Some(evtype)
    ensures WindowsOf(r) == [] && ColormapsOf(r) == []
  {
    if evtype == XI_DEVICE_CHANGED then XIDeviceChanged(NewDeviceChanged(d.deviceChanged, display))
    else if evtype == XI_HIERARCHY_CHANGED then XIHierarchyChanged(NewHierarchy(d.hierarchy, display))
    else XIPropertyChanged(NewDeviceProperty(d.property, display))
  }

  /**
   * `new_xinput2`: fetch the cookie data once, convert it for a listed
   * sub-type, and free it; an unlisted sub-type frees it at once and gives
   * `Unknown`.
   */
  function DecodeXInput2(e: RawEvent, display: int): (r: Decoded)
    requires ValidCookieData(e.cookie.evtype, e.cookie.data)
    ensures r.trace == [XGetEventData(display, e.cookie.cookie)]
                       + (if IsKnownEventType(e.cookie.evtype) then [Convert(e.cookie.evtype)] else [])
                       + [XFreeEventData(display, e.cookie.cookie)]
    ensures r.data.Unknown? <==> !IsKnownEventType(e.cookie.evtype)
    ensures r.data.Unknown? ==> r.data.native == e
    ensures !r.data.Unknown? ==> XIType(r.data) == Some(e.cookie.evtype)
    ensures AllForeign(r.data, display)
  {
    var get := XGetEventData(display, e.cookie.cookie);
    var free := XFreeEventData(display, e.cookie.cookie);
    if IsKnownEventType(e.cookie.evtype) then
      Decoded(DecodeXIPayload(e.cookie.evtype, e.cookie.data, display), [get, Convert(e.cookie.evtype), free])
    else
      Decoded(Unknown(e), [get, free])
  }

  /** `new_generic`: only the XInput2 opcode leads to the cookie; any other extension is `Unknown` with no call. */
  function DecodeGeneric(e: RawEvent, c: Display.Display): (r: Decoded)
    requires e.eventType == GENERIC_EVENT
    requires e.cookie.extension == c.xinput2Opcode ==> ValidCookieData(e.cookie.evtype, e.cookie.data)
    ensures e.cookie.extension != c.xinput2Opcode ==> r == Decoded(Unknown(e), [])
    ensures e.cookie.extension == c.xinput2Opcode ==> r == DecodeXInput2(e, c.handle)
    ensures NativeType(r.data, c) == GENERIC_EVENT
    ensures r.data.Unknown? ==> r.data.native == e
    ensures Balanced(r.trace)
    ensures AllForeign(r.data, c.handle)
  {
    if e.cookie.extension == c.xinput2Opcode then DecodeXInput2(e, c.handle) else Decoded(Unknown(e), [])
  }

  /**
   * `XEventData::new`: the core arms first, then `GenericEvent`, then the
   * cursor-notify guard, then `Unknown` carrying the raw event.
   */
  function Decode(e: RawEvent, c: Display.Display): (r: Decoded)
    requires Decodable(e, c)
    ensures NativeType(r.data, c) == e.eventType
    ensures r.data.Unknown? ==> r.data.native == e
    ensures Balanced(r.trace)
    ensures AllForeign(r.data, c.handle)
  {
    var t := e.eventType;
    if IsCoreCode(t) then Decoded(DecodeCore(e, c), [])
    else if t == GENERIC_EVENT then DecodeGeneric(e, c)
    else if t == c.xfixesEventBase + XFIXES_CURSOR_NOTIFY then
      Decoded(CursorChanged(NewDisplayCursor(e.cursorNotify, c.handle)), [])
    else Decoded(Unknown(e), [])
  }

  // ---------------------------------------------------------------------
  // Properties of the classification
  // ---------------------------------------------------------------------

  /** A fixed core code always yields its own core variant, with no call into Xlib, whatever the extension codes are. */
  lemma CoreCodesWin(e: RawEvent, c: Display.Display)
    requires Decodable(e, c) && IsCoreCode(e.eventType)
    ensures IsCoreVariant(Decode(e, c).data)
    ensures NativeType(Decode(e, c).data, c) == e.eventType
    ensures Decode(e, c).trace == []
  {
  }

  /** The cursor-notify variant appears exactly when no core arm and no generic arm matched and the tag is the XFixes base plus one. */
  lemma CursorNotifyAfterCoreArms(e: RawEvent, c: Display.Display)
    requires Decodable(e, c)
    ensures Decode(e, c).data.CursorChanged? <==>
              !IsCoreCode(e.eventType) && e.eventType != GENERIC_EVENT && e.eventType == c.xfixesEventBase + XFIXES_CURSOR_NOTIFY
    ensures Decode(e, c).data.CursorChanged? ==> Decode(e, c).trace == []
  {
  }

  /** When `Unknown` is the result, and that it then carries the raw event unchanged. */
  lemma UnknownExactly(e: RawEvent, c: Display.Display)
    requires Decodable(e, c)
    ensures Decode(e, c).data.Unknown? <==>
              (!IsCoreCode(e.eventType) && e.eventType != GENERIC_EVENT && e.eventType != c.xfixesEventBase + XFIXES_CURSOR_NOTIFY)
              || (e.eventType == GENERIC_EVENT && e.cookie.extension != c.xinput2Opcode)
              || (e.eventType == GENERIC_EVENT && e.cookie.extension == c.xinput2Opcode && !IsKnownEventType(e.cookie.evtype))
    ensures Decode(e, c).data.Unknown? ==> Decode(e, c).data.native == e
  {
  }

  /** A generic event of another extension: `Unknown`, and neither `XGetEventData` nor `XFreeEventData` is called. */
  lemma OtherExtensionUntouched(e: RawEvent, c: Display.Display)
    requires Decodable(e, c)
    requires e.eventType == GENERIC_EVENT && e.cookie.extension != c.xinput2Opcode
    ensures Decode(e, c) == Decoded(Unknown(e), [])
  {
  }

  /** An XInput2 cookie is fetched once and freed once, after the conversion of a listed sub-type and also for an unlisted one. */
  lemma XInput2FetchesAndFreesOnce(e: RawEvent, c: Display.Display)
    requires Decodable(e, c)
    requires e.eventType == GENERIC_EVENT && e.cookie.extension == c.xinput2Opcode
    ensures var r := Decode(e, c);
            |r.trace| >= 2 && r.trace[0] == XGetEventData(c.handle, e.cookie.cookie)
            && r.trace[|r.trace| - 1] == XFreeEventData(c.handle, e.cookie.cookie)
            && (IsKnownEventType(e.cookie.evtype) ==> r.trace[1] == Convert(e.cookie.evtype) && XIType(r.data) == Some(e.cookie.evtype))
            && (!IsKnownEventType(e.cookie.evtype) ==> |r.trace| == 2 && r.data == Unknown(e))
  {
  }

  /** Dropping anything a decoded event holds releases nothing. */
  lemma DecodedReleasesNothing(e: RawEvent, c: Display.Display)
    requires Decodable(e, c)
    ensures forall w :: w in WindowsOf(Decode(e, c).data) ==> Window.Drop(w).None?
    ensures forall m :: m in ColormapsOf(Decode(e, c).data) ==> Colormap.Drop(m).None?
  {
  }

  /** The payload of an input, crossing, focus, keymap or expose event is built from the view its code selects. */
  lemma InputPayloads(e: RawEvent, c: Display.Display)
    requires Decodable(e, c) && KEY_PRESS <= e.eventType <= EXPOSE
    ensures var d := Decode(e, c).data; var t := e.eventType; var h := c.handle;
            (t == KEY_PRESS ==> d == KeyPress(NewKey(e.key, h)))
            && (t == KEY_RELEASE ==> d == KeyRelease(NewKey(e.key, h)))
            && (t == BUTTON_PRESS ==> d == ButtonPress(NewButton(e.button, h)))
            && (t == BUTTON_RELEASE ==> d == ButtonRelease(NewButton(e.button, h)))
            && (t == MOTION_NOTIFY ==> d == Motion(NewMotion(e.motion, h)))
            && (t == ENTER_NOTIFY ==> d == EnterWindow(NewCrossing(e.crossing, h)))
            && (t == LEAVE_NOTIFY ==> d == LeaveWindow(NewCrossing(e.crossing, h)))
            && (t == FOCUS_IN ==> d == FocusIn(NewFocusChange(e.focusChange)))
            && (t == FOCUS_OUT ==> d == FocusOut(NewFocusChange(e.focusChange)))
            && (t == KEYMAP_NOTIFY ==> d == KeymapChange(NewKeymap(e.keymap)))
            && (t == EXPOSE ==> d == Expose(NewExpose(e.expose)))
  {
    assert IsCoreCode(e.eventType);
  }

  /** The payload of a window-structure event is built from the view its code selects. */
  lemma WindowPayloads(e: RawEvent, c: Display.Display)
    requires Decodable(e, c) && VISIBILITY_NOTIFY <= e.eventType <= CIRCULATE_REQUEST && e.eventType != CREATE_NOTIFY
    ensures var d := Decode(e, c).data; var t := e.eventType; var h := c.handle;
            (t == VISIBILITY_NOTIFY ==> d == VisibilityChange(NewVisibility(e.visibility)))
            && (t == DESTROY_NOTIFY ==> d == Destroy(NewDestroyWindow(e.destroyWindow, h)))
            && (t == UNMAP_NOTIFY ==> d == Unmap(NewUnmap(e.unmap, h)))
            && (t == MAP_NOTIFY ==> d == Map(NewMap(e.mapNotify, h)))
            && (t == MAP_REQUEST ==> d == MapRequest(NewMapRequest(e.mapRequest, h)))
            && (t == REPARENT_NOTIFY ==> d == Reparent(NewReparent(e.reparent, h)))
            && (t == CONFIGURE_NOTIFY ==> d == Configure(NewConfigure(e.configure, h)))
            && (t == CONFIGURE_REQUEST ==> d == ConfigureRequest(NewConfigureRequest(e.configureRequest, h)))
            && (t == GRAVITY_NOTIFY ==> d == Gravity(NewGravity(e.gravity, h)))
            && (t == RESIZE_REQUEST ==> d == ResizeRequest(NewResizeRequest(e.resizeRequest)))
            && (t == CIRCULATE_NOTIFY ==> d == Circulate(NewCirculate(e.circulate, h)))
            && (t == CIRCULATE_REQUEST ==> d == CirculateRequest(NewCirculateRequest(e.circulateRequest, h)))
  {
    assert IsCoreCode(e.eventType);
  }

  /** The payload of an inter-client event is built from the view its code selects. */
  lemma ClientPayloads(e: RawEvent, c: Display.Display)
    requires Decodable(e, c) && PROPERTY_NOTIFY <= e.eventType <= MAPPING_NOTIFY
    ensures var d := Decode(e, c).data; var t := e.eventType; var h := c.handle;
            (t == PROPERTY_NOTIFY ==> d == PropertyChange(NewProperty(e.property, h)))
            && (t == SELECTION_CLEAR ==> d == SelectionClear(NewSelectionClear(e.selectionClear, h)))
            && (t == SELECTION_REQUEST ==> d == SelectionRequest(NewSelectionRequest(e.selectionRequest, h)))
            && (t == SELECTION_NOTIFY ==> d == Selection(NewSelection(e.selection, h)))
            && (t == COLORMAP_NOTIFY ==> d == ColormapChange(NewColormap(e.colormap, h)))
            && (t == CLIENT_MESSAGE ==> d == ClientMessage(NewClientMessage(e.clientMessage, h)))
            && (t == MAPPING_NOTIFY ==> d == Mapping(NewMapping(e.mapping)))
  {
    assert IsCoreCode(e.eventType);
  }

  /** The payload of the XFixes cursor event is built from the cursor-notify view. */
  lemma CursorPayload(e: RawEvent, c: Display.Display)
    requires Decodable(e, c) && Decode(e, c).data.CursorChanged?
    ensures Decode(e, c).data == CursorChanged(NewDisplayCursor(e.cursorNotify, c.handle))
  {
  }

  /** A listed XInput2 sub-type decodes to the conversion of its cookie data. */
  lemma XInput2DecodesPayload(e: RawEvent, c: Display.Display)
    requires Decodable(e, c) && e.eventType == GENERIC_EVENT && e.cookie.extension == c.xinput2Opcode
    requires IsKnownEventType(e.cookie.evtype)
    ensures Decode(e, c).data == DecodeXIPayload(e.cookie.evtype, e.cookie.data, c.handle)
  {
  }

  /** A pointer, key or touch sub-type converts the device view. */
  lemma XInput2DevicePayload(t: int, x: CookieData, h: int)
    requires IsDeviceEventType(t) && ValidCookieData(t, x)
    ensures DecodeXIPayload(t, x, h) == DeviceVariant(t, NewDevice(x.device, h))
  {
  }

  /** A raw sub-type converts the raw view. */
  lemma XInput2RawPayload(t: int, x: CookieData, h: int)
    requires IsRawEventType(t) && ValidCookieData(t, x)
    ensures DecodeXIPayload(t, x, h) == RawVariant(t, NewRaw(x.raw, h))
  {
    assert !IsDeviceEventType(t);
    assert ValidRaw(x.raw);
  }

  /** A crossing or focus sub-type converts the enter view. */
  lemma XInput2FocusPayload(t: int, x: CookieData, h: int)
    requires IsFocusEventType(t) && ValidCookieData(t, x)
    ensures DecodeXIPayload(t, x, h) == FocusVariant(t, NewFocus(x.enter, h))
  {
    assert !IsDeviceEventType(t) && !IsRawEventType(t);
    assert ValidEnter(x.enter);
  }

  /** The conversion of the other listed sub-types is built from the cookie view of their own structure. */
  lemma XInput2OtherPayloads(t: int, x: CookieData, h: int)
    requires IsKnownEventType(t) && ValidCookieData(t, x)
    ensures var d := DecodeXIPayload(t, x, h);
            (t == XI_TOUCH_OWNERSHIP ==> d == XITouchOwnershipChanged(NewTouchOwnership(x.touchOwnership, h)))
            && (t == XI_BARRIER_HIT ==> d == XIBarrierHit(NewBarrier(x.barrier, h)))
            && (t == XI_BARRIER_LEAVE ==> d == XIBarrierLeft(NewBarrier(x.barrier, h)))
            && (t == XI_DEVICE_CHANGED ==> d == XIDeviceChanged(NewDeviceChanged(x.deviceChanged, h)))
            && (t == XI_HIERARCHY_CHANGED ==> d == XIHierarchyChanged(NewHierarchy(x.hierarchy, h)))
            && (t == XI_PROPERTY_EVENT ==> d == XIPropertyChanged(NewDeviceProperty(x.property, h)))
  {
    if IsDeviceEventType(t) || IsRawEventType(t) || IsFocusEventType(t) {
    } else {
      assert DecodeXIPayload(t, x, h) == DecodeXIOther(t, x, h);
    }
  }

  // ---------------------------------------------------------------------
  // Envelope
  // ---------------------------------------------------------------------

  /** `XEvent`: the header every event carries, and its payload. */
  datatype XEvent = XEvent(serial: int, sendEvent: bool, window: Window.Window, data: EventData)

  /** `XEvent::new`: read the header from the `any` view, then classify; the header window is foreign too. */
  function NewEvent(e: RawEvent, c: Display.Display): (r: (XEvent, seq<Step>))
    requires Decodable(e, c)
    ensures r.0.serial == e.any.serial && r.0.sendEvent == (e.any.sendEvent != 0)
    ensures r.0.window.handle == e.any.window && Window.Drop(r.0.window).None?
    ensures NativeType(r.0.data, c) == e.eventType
    ensures Balanced(r.1)
    ensures AllForeign(r.0.data, c.handle)
  {
    var d := Decode(e, c);
    (XEvent(e.any.serial, e.any.sendEvent != 0, ForeignWindow(e.any.window, c.handle), d.data), d.trace)
  }
}
