/**
 * The core X events (section 11 of the X Window System Protocol, Events):
 * the raw Xlib views the decoder reads (`XKeyEvent`, `XConfigureEvent`, …,
 * each keeping only the fields the wrapper reads) and the wrapper's decoded
 * payloads with their constructors. Every window and colormap a
 * constructor wraps is tagged `Foreign`; three optional ids use 0 for
 * "none".
 */
module CoreEvents {
  import opened Wrappers
  import opened Native
  import Atom
  import Window
  import Colormap
  import opened EventEnums

  // ---------------------------------------------------------------------
  // Optional ids
  // ---------------------------------------------------------------------

  /** A window id that may be 0 (`None`): the configure `above` sibling. */
  function OptionalWindow(handle: int, display: int): (r: Option<Window.Window>)
    ensures r.None? <==> handle == 0
    ensures r.Some? ==> r.value == Window.New(handle, display, Window.Foreign)
  {
    if handle == 0 then None else Some(Window.New(handle, display, Window.Foreign))
  }

  /** An atom id that may be 0 (`None`): the selection `property` and the valuator `label`. */
  function OptionalAtom(id: int, display: int): (r: Option<Atom.Atom>)
    ensures r.None? <==> id == Atom.NONE
    ensures r.Some? ==> r.value == Atom.Atom(id, display)
  {
    if id == Atom.NONE then None else Some(Atom.Atom(id, display))
  }

  /** The id a client would send for an optional window. */
  function WindowOrNone(w: Option<Window.Window>): int {
    if w.Some? then w.value.handle else 0
  }

  /** The id a client would send for an optional atom. */
  function AtomOrNone(a: Option<Atom.Atom>): int {
    if a.Some? then a.value.id else Atom.NONE
  }

  /** Mapping 0 to `None` loses nothing: the id is recovered, and a present foreign value with a non-zero id comes back unchanged. */
  lemma OptionalIdsRoundTrip(id: int, display: int, w: Option<Window.Window>, a: Option<Atom.Atom>)
    ensures WindowOrNone(OptionalWindow(id, display)) == id
    ensures AtomOrNone(OptionalAtom(id, display)) == id
    ensures (w.None? || (w.value.handle != 0 && w.value.display == display && w.value.ownership == Window.Foreign))
            ==> OptionalWindow(WindowOrNone(w), display) == w
    ensures (a.None? || (a.value.id != Atom.NONE && a.value.display == display))
            ==> OptionalAtom(AtomOrNone(a), display) == a
  {
  }

  /** A window the server names in an event: the wrapper never owns it. */
  function ForeignWindow(handle: int, display: int): (r: Window.Window)
    ensures r.handle == handle && r.display == display && Window.Drop(r).None?
  {
    Window.New(handle, display, Window.Foreign)
  }

  // ---------------------------------------------------------------------
  // Raw views
  // ---------------------------------------------------------------------

  /** `XAnyEvent`: the header every event shares. */
  datatype RawAny = RawAny(serial: int, sendEvent: int, window: int)

  /**
   * `XKeyEvent`, `XButtonEvent` and `XMotionEvent` share one layout; `detail`
   * is the keycode, the button or the `is_hint` byte respectively.
   */
  datatype RawInput = RawInput(root: int, subwindow: int, time: int, x: int, y: int, xRoot: int, yRoot: int, state: int, detail: int, sameScreen: int)

  /** `XCrossingEvent`. */
  datatype RawCrossing = RawCrossing(root: int, subwindow: int, time: int, x: int, y: int, xRoot: int, yRoot: int, detail: int, sameScreen: int, focus: int, state: int)

  /** `XColormapEvent`. */
  datatype RawColormap = RawColormap(colormap: int, isNew: int, state: int)

  /** `XExposeEvent`. */
  datatype RawExpose = RawExpose(x: int, y: int, width: int, height: int, count: int)

  /** `XFocusChangeEvent`. */
  datatype RawFocusChange = RawFocusChange(mode: int, detail: int)

  /** The 32 `char`s of `XKeymapEvent.key_vector`. */
  type KeyVector = s: seq<int> | |s| == 32 witness seq(32, _ => 0)

  /** `XKeymapEvent`. */
  datatype RawKeymap = RawKeymap(keyVector: KeyVector)

  /** `XPropertyEvent`. */
  datatype RawProperty = RawProperty(atom: int, time: int, state: int)

  /** `XResizeRequestEvent`. */
  datatype RawResizeRequest = RawResizeRequest(width: int, height: int)

  /** `XCirculateEvent` and `XCirculateRequestEvent` (the wrapper reads the same two fields of each). */
  datatype RawCirculate = RawCirculate(window: int, place: int)

  /** `XConfigureEvent`. */
  datatype RawConfigure = RawConfigure(window: int, x: int, y: int, width: int, height: int, borderWidth: int, above: int, overrideRedirect: int)

  /** `XDestroyWindowEvent` and `XMapRequestEvent`: only the window is read. */
  datatype RawWindowRef = RawWindowRef(window: int)

  /** `XGravityEvent`. */
  datatype RawGravity = RawGravity(window: int, x: int, y: int)

  /** `XMapEvent`. */
  datatype RawMap = RawMap(window: int, overrideRedirect: int)

  /** `XReparentEvent`. */
  datatype RawReparent = RawReparent(window: int, parent: int, x: int, y: int, overrideRedirect: int)

  /** `XUnmapEvent`. */
  datatype RawUnmap = RawUnmap(window: int, fromConfigure: int)

  /** `XConfigureRequestEvent`. */
  datatype RawConfigureRequest = RawConfigureRequest(window: int, x: int, y: int, width: int, height: int, borderWidth: int, above: int, detail: int, valueMask: int)

  /** The three views of the client-message data union: 20 `char`s, 10 `short`s, 5 `long`s. */
  type RawBytes = s: seq<int> | |s| == 20 witness seq(20, _ => 0)
  type RawShorts = s: seq<int> | |s| == 10 witness seq(10, _ => 0)
  type RawLongs = s: seq<int> | |s| == 5 witness seq(5, _ => 0)

  /** `XClientMessageEvent`. */
  datatype RawClientMessage = RawClientMessage(messageType: int, format: int, b: RawBytes, s: RawShorts, l: RawLongs)

  /** `XMappingEvent`. */
  datatype RawMapping = RawMapping(request: int, firstKeycode: int, count: int)

  /** `XSelectionClearEvent`. */
  datatype RawSelectionClear = RawSelectionClear(selection: int, time: int)

  /** `XSelectionEvent`. */
  datatype RawSelection = RawSelection(selection: int, target: int, property: int, time: int)

  /** `XSelectionRequestEvent`. */
  datatype RawSelectionRequest = RawSelectionRequest(requestor: int, selection: int, target: int, property: int, time: int)

  /** `XVisibilityEvent`. */
  datatype RawVisibility = RawVisibility(state: int)

  /** `XFixesCursorNotifyEvent`. */
  datatype RawCursorNotify = RawCursorNotify(subtype: int, cursorSerial: int, timestamp: int, cursorName: int)

  // ---------------------------------------------------------------------
  // Decoded payloads
  // ---------------------------------------------------------------------

  /** `NotifyHint`: the value of `is_hint` that marks a motion hint. */
  const NOTIFY_HINT: int := 1

  datatype MotionEvent = MotionEvent(root: Window.Window, subwindow: Window.Window, time: int, x: int, y: int, rootX: int, rootY: int, state: int, isHint: bool, sameScreen: bool)
  datatype ButtonEvent = ButtonEvent(root: Window.Window, subwindow: Window.Window, time: int, x: int, y: int, rootX: int, rootY: int, state: int, button: int, sameScreen: bool)
  datatype KeyEvent = KeyEvent(root: Window.Window, subwindow: Window.Window, time: int, x: int, y: int, rootX: int, rootY: int, state: int, keycode: int, sameScreen: bool)
  datatype ColormapEvent = ColormapEvent(colormap: Colormap.Colormap, isNew: bool, state: Colormap.ColormapState)
  datatype CrossingEvent = CrossingEvent(root: Window.Window, subwindow: Window.Window, time: int, x: int, y: int, rootX: int, rootY: int, detail: NotifyDetail, sameScreen: bool, focus: bool, state: int)
  datatype ExposeEvent = ExposeEvent(x: int, y: int, width: int, height: int, count: int)
  datatype FocusChangeEvent = FocusChangeEvent(mode: NotifyMode, detail: NotifyDetail)
  datatype KeymapEvent = KeymapEvent(keyVector: seq<char>)
  datatype PropertyEvent = PropertyEvent(atom: Atom.Atom, time: int, state: PropertyState)
  datatype ResizeRequestEvent = ResizeRequestEvent(width: int, height: int)
  datatype CirculateEvent = CirculateEvent(window: Window.Window, place: CirculatePlace)
  datatype ConfigureEvent = ConfigureEvent(window: Window.Window, x: int, y: int, width: int, height: int, borderWidth: int, above: Option<Window.Window>, overrideRedirect: bool)
  datatype DestroyWindowEvent = DestroyWindowEvent(window: Window.Window)
  datatype GravityEvent = GravityEvent(window: Window.Window, x: int, y: int)
  datatype MapEvent = MapEvent(window: Window.Window, overrideRedirect: bool)
  datatype ReparentEvent = ReparentEvent(window: Window.Window, parent: Window.Window, x: int, y: int, overrideRedirect: bool)
  datatype UnmapEvent = UnmapEvent(window: Window.Window, fromConfigure: bool)
  datatype CirculateRequestEvent = CirculateRequestEvent(window: Window.Window, place: CirculatePlace)
  datatype ConfigureRequestEvent = ConfigureRequestEvent(window: Window.Window, x: int, y: int, width: int, height: int, borderWidth: int, above: Window.Window, detail: ConfigureDetail, valueMask: int)
  datatype MapRequestEvent = MapRequestEvent(window: Window.Window)
  datatype MappingEvent = MappingEvent(request: MappingRequestType, firstKeycode: int, count: int)
  datatype SelectionClearEvent = SelectionClearEvent(selection: Atom.Atom, time: int)
  datatype SelectionEvent = SelectionEvent(selection: Atom.Atom, target: Atom.Atom, property: Option<Atom.Atom>, time: int)
  datatype SelectionRequestEvent = SelectionRequestEvent(requestor: Window.Window, selection: Atom.Atom, target: Atom.Atom, property: Atom.Atom, time: int)
  datatype VisibilityEvent = VisibilityEvent(state: VisibilityState)
  datatype DisplayCursorEvent = DisplayCursorEvent(subtype: CursorSubtype, cursorSerial: int, timestamp: int, cursorName: Atom.Atom)

  /** `ClientMessageData`: `[i8; 20]`, `[i16; 10]` or `[i32; 5]`. */
  type I8x20 = s: seq<int> | |s| == 20 && forall i :: 0 <= i < 20 ==> -0x80 <= s[i] < 0x80 witness seq(20, _ => 0)
  type I16x10 = s: seq<int> | |s| == 10 && forall i :: 0 <= i < 10 ==> -0x8000 <= s[i] < 0x8000 witness seq(10, _ => 0)
  type I32x5 = s: seq<int> | |s| == 5 && forall i :: 0 <= i < 5 ==> -0x8000_0000 <= s[i] < 0x8000_0000 witness seq(5, _ => 0)

  datatype ClientMessageData = Bit8(bytes: I8x20) | Bit16(shorts: I16x10) | Bit32(longs: I32x5)

  datatype ClientMessageEvent = ClientMessageEvent(messageType: Atom.Atom, data: ClientMessageData)

  /** `w` is the foreign window an event names by `handle` on `display`. */
  predicate NamesForeign(w: Window.Window, handle: int, display: int) {
    w.handle == handle && w.display == display && w.ownership == Window.Foreign
  }

  /** `a` is the atom an event names by `id` on `display`. */
  predicate NamesAtom(a: Atom.Atom, id: int, display: int) {
    a.id == id && a.display == display
  }

  // ---------------------------------------------------------------------
  // Constructors
  // ---------------------------------------------------------------------

  function NewMotion(e: RawInput, display: int): (r: MotionEvent)
    ensures NamesForeign(r.root, e.root, display) && NamesForeign(r.subwindow, e.subwindow, display)
    ensures r.time == e.time && r.x == e.x && r.y == e.y && r.rootX == e.xRoot && r.rootY == e.yRoot && r.state == e.state
    ensures r.isHint <==> e.detail == NOTIFY_HINT
    ensures r.sameScreen <==> e.sameScreen != 0
  {
    MotionEvent(ForeignWindow(e.root, display), ForeignWindow(e.subwindow, display), e.time, e.x, e.y, e.xRoot, e.yRoot,
                e.state, e.detail == NOTIFY_HINT, NonZero(e.sameScreen))
  }

  function NewButton(e: RawInput, display: int): (r: ButtonEvent)
    ensures NamesForeign(r.root, e.root, display) && NamesForeign(r.subwindow, e.subwindow, display)
    ensures r.time == e.time && r.x == e.x && r.y == e.y && r.rootX == e.xRoot && r.rootY == e.yRoot && r.state == e.state
    ensures r.button == e.detail
    ensures r.sameScreen <==> e.sameScreen != 0
  {
    ButtonEvent(ForeignWindow(e.root, display), ForeignWindow(e.subwindow, display), e.time, e.x, e.y, e.xRoot, e.yRoot,
                e.state, e.detail, NonZero(e.sameScreen))
  }

  function NewKey(e: RawInput, display: int): (r: KeyEvent)
    ensures NamesForeign(r.root, e.root, display) && NamesForeign(r.subwindow, e.subwindow, display)
    ensures r.time == e.time && r.x == e.x && r.y == e.y && r.rootX == e.xRoot && r.rootY == e.yRoot && r.state == e.state
    ensures r.keycode == e.detail
    ensures r.sameScreen <==> e.sameScreen != 0
  {
    KeyEvent(ForeignWindow(e.root, display), ForeignWindow(e.subwindow, display), e.time, e.x, e.y, e.xRoot, e.yRoot,
             e.state, e.detail, NonZero(e.sameScreen))
  }

  function NewColormap(e: RawColormap, display: int): (r: ColormapEvent)
    requires Colormap.IsColormapState(e.state)
    ensures r.colormap.handle == e.colormap && r.colormap.display == display && r.colormap.ownership == Colormap.Foreign
    ensures r.isNew <==> e.isNew != 0
    ensures Colormap.StateToNative(r.state) == e.state
  {
    ColormapEvent(Colormap.New(e.colormap, display, Colormap.Foreign), NonZero(e.isNew), Colormap.StateFromNative(e.state))
  }

  function NewCrossing(e: RawCrossing, display: int): (r: CrossingEvent)
    requires IsNotifyDetail(e.detail)
    ensures NamesForeign(r.root, e.root, display) && NamesForeign(r.subwindow, e.subwindow, display)
    ensures r.time == e.time && r.x == e.x && r.y == e.y && r.rootX == e.xRoot && r.rootY == e.yRoot && r.state == e.state
    ensures NotifyDetailToNative(r.detail) == e.detail
    ensures (r.sameScreen <==> e.sameScreen != 0) && (r.focus <==> e.focus != 0)
  {
    CrossingEvent(ForeignWindow(e.root, display), ForeignWindow(e.subwindow, display), e.time, e.x, e.y, e.xRoot, e.yRoot,
                  NotifyDetailFromNative(e.detail), NonZero(e.sameScreen), NonZero(e.focus), e.state)
  }

  function NewExpose(e: RawExpose): (r: ExposeEvent)
    ensures r.x == e.x && r.y == e.y && r.width == e.width && r.height == e.height && r.count == e.count
  {
    ExposeEvent(e.x, e.y, e.width, e.height, e.count)
  }

  function NewFocusChange(e: RawFocusChange): (r: FocusChangeEvent)
    requires IsNotifyMode(e.mode) && IsNotifyDetail(e.detail)
    ensures NotifyModeToNative(r.mode) == e.mode && NotifyDetailToNative(r.detail) == e.detail
  {
    FocusChangeEvent(NotifyModeFromNative(e.mode), NotifyDetailFromNative(e.detail))
  }

  /**
   * `XKeymapEvent::new`: each `char` is reinterpreted as `u8` and widened to
   * a Rust `char`, so the 32 entries keep their order and their low 8 bits.
   */
  function NewKeymap(e: RawKeymap): (r: KeymapEvent)
    ensures |r.keyVector| == 32
    ensures forall i :: 0 <= i < 32 ==> r.keyVector[i] as int < TWO_8
  {
    KeymapEvent(seq(32, i requires 0 <= i < 32 => WrapU8(e.keyVector[i]) as char))
  }

  /** A keymap entry read back as a C `char` is the byte the server sent. */
  lemma KeymapKeepsBytes(e: RawKeymap, i: int)
    requires 0 <= i < 32
    requires -0x80 <= e.keyVector[i] < 0x80
    ensures WrapI8(NewKeymap(e).keyVector[i] as int) == e.keyVector[i]
  {
    var k := e.keyVector[i];
    var c := NewKeymap(e).keyVector[i] as int;
    assert c == WrapU8(k);
    if k >= 0 {
      assert c == k;
    } else {
      assert c == k + TWO_8;
    }
  }

  function NewProperty(e: RawProperty, display: int): (r: PropertyEvent)
    requires IsPropertyState(e.state)
    ensures NamesAtom(r.atom, e.atom, display) && r.time == e.time
    ensures PropertyStateToNative(r.state) == e.state
  {
    PropertyEvent(Atom.Atom(e.atom, display), e.time, PropertyStateFromNative(e.state))
  }

  function NewResizeRequest(e: RawResizeRequest): (r: ResizeRequestEvent)
    ensures r.width == e.width && r.height == e.height
  {
    ResizeRequestEvent(e.width, e.height)
  }

  function NewCirculate(e: RawCirculate, display: int): (r: CirculateEvent)
    requires IsCirculatePlace(e.place)
    ensures NamesForeign(r.window, e.window, display)
    ensures PlaceToNative(r.place) == e.place
  {
    CirculateEvent(ForeignWindow(e.window, display), PlaceFromNative(e.place))
  }

  /** `XConfigureEvent::new`: `above` is `None` exactly when the sibling id is 0. */
  function NewConfigure(e: RawConfigure, display: int): (r: ConfigureEvent)
    ensures r.above.None? <==> e.above == 0
    ensures WindowOrNone(r.above) == e.above
    ensures NamesForeign(r.window, e.window, display)
    ensures r.above.Some? ==> NamesForeign(r.above.value, e.above, display)
    ensures r.x == e.x && r.y == e.y && r.width == e.width && r.height == e.height && r.borderWidth == e.borderWidth
    ensures r.overrideRedirect <==> e.overrideRedirect != 0
  {
    ConfigureEvent(ForeignWindow(e.window, display), e.x, e.y, e.width, e.height, e.borderWidth,
                   OptionalWindow(e.above, display), NonZero(e.overrideRedirect))
  }

  function NewDestroyWindow(e: RawWindowRef, display: int): (r: DestroyWindowEvent)
    ensures NamesForeign(r.window, e.window, display)
  {
    DestroyWindowEvent(ForeignWindow(e.window, display))
  }

  function NewGravity(e: RawGravity, display: int): (r: GravityEvent)
    ensures NamesForeign(r.window, e.window, display) && r.x == e.x && r.y == e.y
  {
    GravityEvent(ForeignWindow(e.window, display), e.x, e.y)
  }

  function NewMap(e: RawMap, display: int): (r: MapEvent)
    ensures NamesForeign(r.window, e.window, display)
    ensures r.overrideRedirect <==> e.overrideRedirect != 0
  {
    MapEvent(ForeignWindow(e.window, display), NonZero(e.overrideRedirect))
  }

  function NewReparent(e: RawReparent, display: int): (r: ReparentEvent)
    ensures NamesForeign(r.window, e.window, display) && NamesForeign(r.parent, e.parent, display)
    ensures r.x == e.x && r.y == e.y
    ensures r.overrideRedirect <==> e.overrideRedirect != 0
  {
    ReparentEvent(ForeignWindow(e.window, display), ForeignWindow(e.parent, display), e.x, e.y, NonZero(e.overrideRedirect))
  }

  function NewUnmap(e: RawUnmap, display: int): (r: UnmapEvent)
    ensures NamesForeign(r.window, e.window, display)
    ensures r.fromConfigure <==> e.fromConfigure != 0
  {
    UnmapEvent(ForeignWindow(e.window, display), NonZero(e.fromConfigure))
  }

  function NewCirculateRequest(e: RawCirculate, display: int): (r: CirculateRequestEvent)
    requires IsCirculatePlace(e.place)
    ensures NamesForeign(r.window, e.window, display)
    ensures PlaceToNative(r.place) == e.place
  {
    CirculateRequestEvent(ForeignWindow(e.window, display), PlaceFromNative(e.place))
  }

  /** `XConfigureRequestEvent::new`: unlike the notify event, `above` is always wrapped, even when it is 0. */
  function NewConfigureRequest(e: RawConfigureRequest, display: int): (r: ConfigureRequestEvent)
    requires IsConfigureDetail(e.detail)
    ensures NamesForeign(r.window, e.window, display) && NamesForeign(r.above, e.above, display)
    ensures r.x == e.x && r.y == e.y && r.width == e.width && r.height == e.height && r.borderWidth == e.borderWidth
    ensures ConfigureDetailToNative(r.detail) == e.detail && r.valueMask == e.valueMask
  {
    ConfigureRequestEvent(ForeignWindow(e.window, display), e.x, e.y, e.width, e.height, e.borderWidth,
                          ForeignWindow(e.above, display), ConfigureDetailFromNative(e.detail), e.valueMask)
  }

  function NewMapRequest(e: RawWindowRef, display: int): (r: MapRequestEvent)
    ensures NamesForeign(r.window, e.window, display)
  {
    MapRequestEvent(ForeignWindow(e.window, display))
  }

  /** The formats a client message may carry (section 11 of the X Window System Protocol, ClientMessage). */
  predicate IsClientFormat(format: int) {
    format == 8 || format == 16 || format == 32
  }

  /**
   * The data of `XClientMessageEvent::new`: the view the format selects,
   * element by element in index order, narrowed to `i8`, `i16` or `i32`.
   * Any other format panics.
   */
  function ClientDataFromNative(m: RawClientMessage): (r: ClientMessageData)
    requires IsClientFormat(m.format)
    ensures r.Bit8? <==> m.format == 8
    ensures r.Bit16? <==> m.format == 16
    ensures r.Bit32? <==> m.format == 32
    ensures r.Bit8? ==> forall i :: 0 <= i < 20 ==> (r.bytes[i] - m.b[i]) % TWO_8 == 0
    ensures r.Bit16? ==> forall i :: 0 <= i < 10 ==> (r.shorts[i] - m.s[i]) % TWO_16 == 0
    ensures r.Bit32? ==> forall i :: 0 <= i < 5 ==> (r.longs[i] - m.l[i]) % TWO_32 == 0
  {
    if m.format == 8 then
      Bit8(seq(20, i requires 0 <= i < 20 => WrapI8(m.b[i])))
    else if m.format == 16 then
      Bit16(seq(10, i requires 0 <= i < 10 => WrapI16(m.s[i])))
    else
      Bit32(seq(5, i requires 0 <= i < 5 => WrapI32(m.l[i])))
  }

  /** The format a client message carrying `d` declares. */
  function ClientFormat(d: ClientMessageData): (f: int)
    ensures IsClientFormat(f)
  {
    match d
    case Bit8(_) => 8
    case Bit16(_) => 16
    case Bit32(_) => 32
  }

  /** The raw message a sender of `d` produces; the views the format does not select are left zero. */
  function ClientDataToNative(messageType: int, d: ClientMessageData): RawClientMessage {
    var zb: RawBytes := seq(20, _ => 0);
    var zs: RawShorts := seq(10, _ => 0);
    var zl: RawLongs := seq(5, _ => 0);
    match d
    case Bit8(bytes) => RawClientMessage(messageType, 8, bytes, zs, zl)
    case Bit16(shorts) => RawClientMessage(messageType, 16, zb, shorts, zl)
    case Bit32(longs) => RawClientMessage(messageType, 32, zb, zs, longs)
  }

  /** Every client-message payload survives being sent and decoded. */
  lemma ClientDataRoundTrip(messageType: int, d: ClientMessageData)
    ensures ClientDataToNative(messageType, d).format == ClientFormat(d)
    ensures ClientDataFromNative(ClientDataToNative(messageType, d)) == d
  {
    var r := ClientDataFromNative(ClientDataToNative(messageType, d));
    match d
    case Bit8(bytes) =>
      assert r.Bit8?;
      assert forall i :: 0 <= i < 20 ==> r.bytes[i] == bytes[i];
    case Bit16(shorts) =>
      assert r.Bit16?;
      assert forall i :: 0 <= i < 10 ==> r.shorts[i] == shorts[i];
    case Bit32(longs) =>
      assert r.Bit32?;
      assert forall i :: 0 <= i < 5 ==> r.longs[i] == longs[i];
  }

  function NewClientMessage(e: RawClientMessage, display: int): (r: ClientMessageEvent)
    requires IsClientFormat(e.format)
    ensures NamesAtom(r.messageType, e.messageType, display)
    ensures ClientFormat(r.data) == e.format
    ensures r.data == ClientDataFromNative(e)
  {
    ClientMessageEvent(Atom.Atom(e.messageType, display), ClientDataFromNative(e))
  }

  function NewMapping(e: RawMapping): (r: MappingEvent)
    requires IsMappingRequestType(e.request)
    ensures MappingToNative(r.request) == e.request
    ensures r.firstKeycode == e.firstKeycode && r.count == e.count
  {
    MappingEvent(MappingFromNative(e.request), e.firstKeycode, e.count)
  }

  function NewSelectionClear(e: RawSelectionClear, display: int): (r: SelectionClearEvent)
    ensures NamesAtom(r.selection, e.selection, display) && r.time == e.time
  {
    SelectionClearEvent(Atom.Atom(e.selection, display), e.time)
  }

  /** `XSelectionEvent::new`: the property is `None` exactly when the server refused the conversion (id 0). */
  function NewSelection(e: RawSelection, display: int): (r: SelectionEvent)
    ensures r.property.None? <==> e.property == Atom.NONE
    ensures AtomOrNone(r.property) == e.property
    ensures NamesAtom(r.selection, e.selection, display) && NamesAtom(r.target, e.target, display)
    ensures r.time == e.time
  {
    SelectionEvent(Atom.Atom(e.selection, display), Atom.Atom(e.target, display), OptionalAtom(e.property, display), e.time)
  }

  function NewSelectionRequest(e: RawSelectionRequest, display: int): (r: SelectionRequestEvent)
    ensures NamesForeign(r.requestor, e.requestor, display)
    ensures NamesAtom(r.selection, e.selection, display) && NamesAtom(r.target, e.target, display)
    ensures NamesAtom(r.property, e.property, display) && r.time == e.time
  {
    SelectionRequestEvent(ForeignWindow(e.requestor, display), Atom.Atom(e.selection, display), Atom.Atom(e.target, display),
                          Atom.Atom(e.property, display), e.time)
  }

  function NewVisibility(e: RawVisibility): (r: VisibilityEvent)
    requires IsVisibilityState(e.state)
    ensures VisibilityToNative(r.state) == e.state
  {
    VisibilityEvent(VisibilityFromNative(e.state))
  }

  function NewDisplayCursor(e: RawCursorNotify, display: int): (r: DisplayCursorEvent)
    requires IsCursorSubtype(e.subtype)
    ensures CursorSubtypeToNative(r.subtype) == e.subtype
    ensures r.cursorSerial == e.cursorSerial && r.timestamp == e.timestamp
    ensures NamesAtom(r.cursorName, e.cursorName, display)
  {
    DisplayCursorEvent(CursorSubtypeFromNative(e.subtype), e.cursorSerial, e.timestamp, Atom.Atom(e.cursorName, display))
  }
}
