/**
 * Windows (`XWindow`): handle, display and an ownership tag that decides
 * the release call on drop; the `SetWindowAttributes` builder and its
 * translation to a CreateWindow value mask plus a native attribute record
 * (section 3.3 of the Xlib manual, XCreateWindow; the value-mask bits of
 * section 9 of the X Window System Protocol, CreateWindow); child
 * creation, tree queries, equality and hashing.
 */
module Window {
  import opened Wrappers
  import opened Native
  import Release
  import Property
  import Colormap
  import Cursor

  /** `WindowHandleOwnership`. */
  datatype Ownership = Foreign | Owned | OwnedCompositeOverlay

  /** `XWindow`; the display is represented by its connection handle. */
  datatype Window = Window(handle: int, display: int, ownership: Ownership)

  /** An `XPixmap` as the attribute builder uses it: only its handle is read (pixmap.rs is not part of this model). */
  datatype Pixmap = Pixmap(handle: int)

  /** `BackingWindowStore` with its native values. */
  datatype BackingStore = NotUseful | WhenMapped | Always

  function BackingStoreToNative(b: BackingStore): int {
    match b
    case NotUseful => 0
    case WhenMapped => 1
    case Always => 2
  }

  /** `WindowClass` with its native values. */
  datatype WindowClass = InputOutput | InputOnly

  function WindowClassToNative(c: WindowClass): int {
    match c
    case InputOutput => 1
    case InputOnly => 2
  }

  /** `XWindow::new`. */
  function New(handle: int, display: int, ownership: Ownership): (r: Window)
    ensures Handle(r) == handle && r.display == display && r.ownership == ownership
  {
    Window(handle, display, ownership)
  }

  /** `handle`. */
  function Handle(w: Window): int {
    w.handle
  }

  /** `Drop`: the release call, decided by the ownership tag alone. */
  function Drop(w: Window): (r: Option<Release.ReleaseCall>)
    ensures r.None? <==> w.ownership == Foreign
    ensures w.ownership == Owned ==> r == Some(Release.XDestroyWindow(w.display, w.handle))
    ensures w.ownership == OwnedCompositeOverlay ==> r == Some(Release.XCompositeReleaseOverlayWindow(w.display, w.handle))
  {
    match w.ownership
    case Foreign => None
    case Owned => Some(Release.XDestroyWindow(w.display, w.handle))
    case OwnedCompositeOverlay => Some(Release.XCompositeReleaseOverlayWindow(w.display, w.handle))
  }

  /** `foreign_clone`: the same window, never released by the clone. */
  function ForeignClone(w: Window): (r: Window)
    ensures Same(r, w) && r.ownership == Foreign
  {
    Window(w.handle, w.display, Foreign)
  }

  /** `PartialEq`: same handle on the same display connection; the ownership tag is ignored. */
  predicate Same(a: Window, b: Window) {
    a.handle == b.handle && a.display == b.display
  }

  /** `Hash`: the values fed to the hasher, in order. */
  function HashInput(w: Window): (r: seq<int>)
    ensures r == [w.handle, w.display]
  {
    [w.handle, w.display]
  }

  /** Equality is an equivalence, and equal windows hash alike (the hash input even determines equality). */
  lemma SameIsEquivalence(a: Window, b: Window, c: Window)
    ensures Same(a, a)
    ensures Same(a, b) ==> Same(b, a)
    ensures Same(a, b) && Same(b, c) ==> Same(a, c)
    ensures Same(a, b) <==> HashInput(a) == HashInput(b)
  {
    if HashInput(a) == HashInput(b) {
      assert HashInput(a)[0] == HashInput(b)[0] && HashInput(a)[1] == HashInput(b)[1];
    }
  }

  /** A foreign clone releases nothing, whatever the original owned. */
  lemma ForeignCloneReleasesNothing(w: Window)
    ensures Drop(ForeignClone(w)).None?
    ensures HashInput(ForeignClone(w)) == HashInput(w)
  {
  }

  /** The property holder window property calls (XGetWindowProperty, XChangeProperty, XDeleteProperty) address. */
  function AsHolder(w: Window): (h: Property.Holder)
    ensures h.WindowHolder? && Property.HolderDisplay(h) == w.display && h.window == w.handle
  {
    Property.WindowHolder(w.display, w.handle)
  }

  // ---------------------------------------------------------------------
  // SetWindowAttributes
  // ---------------------------------------------------------------------

  /** `SetWindowAttributes`: every attribute is optional. */
  datatype Attributes = Attributes(
    backgroundPixmap: Option<Pixmap>,
    backgroundPixel: Option<int>,
    borderPixmap: Option<Pixmap>,
    borderPixel: Option<int>,
    bitGravity: Option<int>,
    winGravity: Option<int>,
    backingStore: Option<BackingStore>,
    backingPlanes: Option<int>,
    backingPixel: Option<int>,
    saveUnder: Option<bool>,
    eventMask: Option<int>,
    doNotPropagateMask: Option<int>,
    overrideRedirect: Option<bool>,
    colormap: Option<Colormap.Colormap>,
    cursor: Option<Cursor.Cursor>)

  /**
   * One builder call with its argument: `background_pixmap`, `background_pixel`,
   * …, `cursor`. Input masks are the `bits()` of a `WindowInputMask`.
   */
  datatype Setting =
    | BackgroundPixmap(pixmap: Pixmap)
    | BackgroundPixel(pixel: int)
    | BorderPixmap(pixmap: Pixmap)
    | BorderPixel(pixel: int)
    | BitGravity(gravity: int)
    | WindowGravity(gravity: int)
    | BackingStoreSetting(store: BackingStore)
    | BackingPlanes(planes: int)
    | BackingPixels(pixels: int)
    | SaveUnder(save: bool)
    | EventMask(mask: int)
    | DoNotPropagateMask(mask: int)
    | OverrideRedirect(overrideRedirect: bool)
    | ColormapSetting(colormap: Colormap.Colormap)
    | CursorSetting(cursor: Cursor.Cursor)

  /** The number of attributes, and of value-mask bits the builder can set. */
  const ATTRIBUTE_COUNT: nat := 15

  /**
   * The value-mask bit of an attribute: CWBackPixmap is bit 0, CWBackPixel 1,
   * CWBorderPixmap 2, CWBorderPixel 3, CWBitGravity 4, CWWinGravity 5,
   * CWBackingStore 6, CWBackingPlanes 7, CWBackingPixel 8,
   * CWOverrideRedirect 9, CWSaveUnder 10, CWEventMask 11, CWDontPropagate 12,
   * CWColormap 13 and CWCursor 14.
   */
  function Bit(s: Setting): (b: nat)
    ensures b < ATTRIBUTE_COUNT
  {
    match s
    case BackgroundPixmap(_) => 0
    case BackgroundPixel(_) => 1
    case BorderPixmap(_) => 2
    case BorderPixel(_) => 3
    case BitGravity(_) => 4
    case WindowGravity(_) => 5
    case BackingStoreSetting(_) => 6
    case BackingPlanes(_) => 7
    case BackingPixels(_) => 8
    case OverrideRedirect(_) => 9
    case SaveUnder(_) => 10
    case EventMask(_) => 11
    case DoNotPropagateMask(_) => 12
    case ColormapSetting(_) => 13
    case CursorSetting(_) => 14
  }

  /** The attribute the value-mask bit `b` stands for, as the setting that set it, if set. */
  function Lookup(a: Attributes, b: nat): (r: Option<Setting>)
    ensures r.Some? ==> Bit(r.value) == b
    ensures b >= ATTRIBUTE_COUNT ==> r.None?
  {
    if b == 0 then (if a.backgroundPixmap.Some? then Some(BackgroundPixmap(a.backgroundPixmap.value)) else None)
    else if b == 1 then (if a.backgroundPixel.Some? then Some(BackgroundPixel(a.backgroundPixel.value)) else None)
    else if b == 2 then (if a.borderPixmap.Some? then Some(BorderPixmap(a.borderPixmap.value)) else None)
    else if b == 3 then (if a.borderPixel.Some? then Some(BorderPixel(a.borderPixel.value)) else None)
    else if b == 4 then (if a.bitGravity.Some? then Some(BitGravity(a.bitGravity.value)) else None)
    else if b == 5 then (if a.winGravity.Some? then Some(WindowGravity(a.winGravity.value)) else None)
    else if b == 6 then (if a.backingStore.Some? then Some(BackingStoreSetting(a.backingStore.value)) else None)
    else if b == 7 then (if a.backingPlanes.Some? then Some(BackingPlanes(a.backingPlanes.value)) else None)
    else if b == 8 then (if a.backingPixel.Some? then Some(BackingPixels(a.backingPixel.value)) else None)
    else if b == 9 then (if a.overrideRedirect.Some? then Some(OverrideRedirect(a.overrideRedirect.value)) else None)
    else if b == 10 then (if a.saveUnder.Some? then Some(SaveUnder(a.saveUnder.value)) else None)
    else if b == 11 then (if a.eventMask.Some? then Some(EventMask(a.eventMask.value)) else None)
    else if b == 12 then (if a.doNotPropagateMask.Some? then Some(DoNotPropagateMask(a.doNotPropagateMask.value)) else None)
    else if b == 13 then (if a.colormap.Some? then Some(ColormapSetting(a.colormap.value)) else None)
    else if b == 14 then (if a.cursor.Some? then Some(CursorSetting(a.cursor.value)) else None)
    else None
  }

  /** `SetWindowAttributes::new`: nothing set. */
  function NewAttributes(): (r: Attributes)
    ensures forall b: nat :: Lookup(r, b).None?
  {
    Attributes(None, None, None, None, None, None, None, None, None, None, None, None, None, None, None)
  }

  /** A builder call: store the setting's value in its own field. */
  function Set(a: Attributes, s: Setting): (r: Attributes)
    ensures Lookup(r, Bit(s)) == Some(s)
    ensures forall b: nat :: b != Bit(s) ==> Lookup(r, b) == Lookup(a, b)
  {
    match s
    case BackgroundPixmap(p) => a.(backgroundPixmap := Some(p))
    case BackgroundPixel(v) => a.(backgroundPixel := Some(v))
    case BorderPixmap(p) => a.(borderPixmap := Some(p))
    case BorderPixel(v) => a.(borderPixel := Some(v))
    case BitGravity(v) => a.(bitGravity := Some(v))
    case WindowGravity(v) => a.(winGravity := Some(v))
    case BackingStoreSetting(v) => a.(backingStore := Some(v))
    case BackingPlanes(v) => a.(backingPlanes := Some(v))
    case BackingPixels(v) => a.(backingPixel := Some(v))
    case SaveUnder(v) => a.(saveUnder := Some(v))
    case EventMask(v) => a.(eventMask := Some(v))
    case DoNotPropagateMask(v) => a.(doNotPropagateMask := Some(v))
    case OverrideRedirect(v) => a.(overrideRedirect := Some(v))
    case ColormapSetting(c) => a.(colormap := Some(c))
    case CursorSetting(c) => a.(cursor := Some(c))
  }

  /** The attribute set is determined by what `Lookup` reports for each bit. */
  lemma LookupDetermines(a: Attributes, a': Attributes)
    requires forall b: nat :: b < ATTRIBUTE_COUNT ==> Lookup(a, b) == Lookup(a', b)
    ensures a == a'
  {
    assert Lookup(a, 0) == Lookup(a', 0) && Lookup(a, 1) == Lookup(a', 1) && Lookup(a, 2) == Lookup(a', 2);
    assert Lookup(a, 3) == Lookup(a', 3) && Lookup(a, 4) == Lookup(a', 4) && Lookup(a, 5) == Lookup(a', 5);
    assert Lookup(a, 6) == Lookup(a', 6) && Lookup(a, 7) == Lookup(a', 7) && Lookup(a, 8) == Lookup(a', 8);
    assert Lookup(a, 9) == Lookup(a', 9) && Lookup(a, 10) == Lookup(a', 10) && Lookup(a, 11) == Lookup(a', 11);
    assert Lookup(a, 12) == Lookup(a', 12) && Lookup(a, 13) == Lookup(a', 13) && Lookup(a, 14) == Lookup(a', 14);
  }

  /** A later call for the same attribute overwrites an earlier one; calls for different attributes commute. */
  lemma SetOverwritesAndCommutes(a: Attributes, s: Setting, s': Setting)
    ensures Bit(s) == Bit(s') ==> Set(Set(a, s), s') == Set(a, s')
    ensures Bit(s) != Bit(s') ==> Set(Set(a, s), s') == Set(Set(a, s'), s)
  {
    if Bit(s) == Bit(s') {
      LookupDetermines(Set(Set(a, s), s'), Set(a, s'));
    } else {
      LookupDetermines(Set(Set(a, s), s'), Set(Set(a, s'), s));
    }
  }

  /** `XSetWindowAttributes`, as `into_native` fills it (all integers). */
  datatype NativeAttributes = NativeAttributes(
    backgroundPixmap: int,
    backgroundPixel: int,
    borderPixmap: int,
    borderPixel: int,
    bitGravity: int,
    winGravity: int,
    backingStore: int,
    backingPlanes: int,
    backingPixel: int,
    saveUnder: int,
    eventMask: int,
    doNotPropagateMask: int,
    overrideRedirect: int,
    colormap: int,
    cursor: int)

  /** The zeroed native record. */
  const ZEROED: NativeAttributes := NativeAttributes(0, 0, 0, 0, 0, 0, 0, 0, 0, 0, 0, 0, 0, 0, 0)

  /** The native field the value-mask bit `b` governs. */
  function NativeField(n: NativeAttributes, b: nat): int
    requires b < ATTRIBUTE_COUNT
  {
    if b == 0 then n.backgroundPixmap
    else if b == 1 then n.backgroundPixel
    else if b == 2 then n.borderPixmap
    else if b == 3 then n.borderPixel
    else if b == 4 then n.bitGravity
    else if b == 5 then n.winGravity
    else if b == 6 then n.backingStore
    else if b == 7 then n.backingPlanes
    else if b == 8 then n.backingPixel
    else if b == 9 then n.overrideRedirect
    else if b == 10 then n.saveUnder
    else if b == 11 then n.eventMask
    else if b == 12 then n.doNotPropagateMask
    else if b == 13 then n.colormap
    else n.cursor
  }

  /** The native value of a setting: a handle, the plain value, 0/1, or the discriminant. */
  function NativeValue(s: Setting): int {
    match s
    case BackgroundPixmap(p) => p.handle
    case BackgroundPixel(v) => v
    case BorderPixmap(p) => p.handle
    case BorderPixel(v) => v
    case BitGravity(v) => v
    case WindowGravity(v) => v
    case BackingStoreSetting(v) => BackingStoreToNative(v)
    case BackingPlanes(v) => v
    case BackingPixels(v) => v
    case SaveUnder(v) => BoolToInt(v)
    case EventMask(v) => v
    case DoNotPropagateMask(v) => v
    case OverrideRedirect(v) => BoolToInt(v)
    case ColormapSetting(c) => Colormap.Handle(c)
    case CursorSetting(c) => Cursor.Handle(c)
  }

  /** The value-mask constant of bit `b`: CWBackPixmap (1 << 0) up to CWCursor (1 << 14). */
  function CW(b: nat): bv64
    requires b < ATTRIBUTE_COUNT
  {
    if b == 0 then 0x1 else if b == 1 then 0x2 else if b == 2 then 0x4 else if b == 3 then 0x8
    else if b == 4 then 0x10 else if b == 5 then 0x20 else if b == 6 then 0x40 else if b == 7 then 0x80
    else if b == 8 then 0x100 else if b == 9 then 0x200 else if b == 10 then 0x400 else if b == 11 then 0x800
    else if b == 12 then 0x1000 else if b == 13 then 0x2000 else 0x4000
  }

  /** The union of all fifteen value-mask constants. */
  const ALL_ATTRIBUTE_BITS: bv64 := 0x7FFF

  /** Whether the value mask carries the constant of bit `b`. */
  predicate MaskHas(mask: bv64, b: nat)
    requires b < ATTRIBUTE_COUNT
  {
    mask & CW(b) != 0
  }

  /** Each constant is a single bit, inside the fifteen attribute bits. */
  lemma CWIsBit(b: nat)
    requires b < ATTRIBUTE_COUNT
    ensures CW(b) == (1 as bv64) << (b as bv64)
    ensures CW(b) & !ALL_ATTRIBUTE_BITS == 0
  {
  }

  /** Store the value of a set attribute into a native record. */
  function Store(n: NativeAttributes, s: Setting): (r: NativeAttributes)
    ensures NativeField(r, Bit(s)) == NativeValue(s)
    ensures forall b: nat :: b < ATTRIBUTE_COUNT && b != Bit(s) ==> NativeField(r, b) == NativeField(n, b)
  {
    var v := NativeValue(s);
    match s
    case BackgroundPixmap(_) => n.(backgroundPixmap := v)
    case BackgroundPixel(_) => n.(backgroundPixel := v)
    case BorderPixmap(_) => n.(borderPixmap := v)
    case BorderPixel(_) => n.(borderPixel := v)
    case BitGravity(_) => n.(bitGravity := v)
    case WindowGravity(_) => n.(winGravity := v)
    case BackingStoreSetting(_) => n.(backingStore := v)
    case BackingPlanes(_) => n.(backingPlanes := v)
    case BackingPixels(_) => n.(backingPixel := v)
    case SaveUnder(_) => n.(saveUnder := v)
    case EventMask(_) => n.(eventMask := v)
    case DoNotPropagateMask(_) => n.(doNotPropagateMask := v)
    case OverrideRedirect(_) => n.(overrideRedirect := v)
    case ColormapSetting(_) => n.(colormap := v)
    case CursorSetting(_) => n.(cursor := v)
  }

  /** Setting one bit of a mask changes the answer of a bit test only for that bit. */
  lemma OrShift(mask: bv64, bit: bv64, b: bv64)
    requires bit < 64 && b < 64
    ensures (mask | (1 << bit)) & (1 << b) != 0 <==> (mask & (1 << b) != 0) || b == bit
  {
  }

  /** Adding the constant of bit `k` to a mask adds bit `k` only. */
  lemma OrCW(mask: bv64, k: nat, b: nat)
    requires k < ATTRIBUTE_COUNT && b < ATTRIBUTE_COUNT
    ensures (mask | CW(k)) & CW(b) != 0 <==> (mask & CW(b) != 0) || b == k
  {
    CWIsBit(k);
    CWIsBit(b);
    OrShift(mask, k as bv64, b as bv64);
    assert b == k <==> (b as bv64) == (k as bv64);
  }

  /** A mask within the attribute bits that carries none of their constants is zero. */
  lemma EmptyMask(mask: bv64)
    requires mask & !ALL_ATTRIBUTE_BITS == 0
    requires forall b: nat :: b < ATTRIBUTE_COUNT ==> !MaskHas(mask, b)
    ensures mask == 0
  {
    assert !MaskHas(mask, 0) && !MaskHas(mask, 1) && !MaskHas(mask, 2) && !MaskHas(mask, 3) && !MaskHas(mask, 4);
    assert !MaskHas(mask, 5) && !MaskHas(mask, 6) && !MaskHas(mask, 7) && !MaskHas(mask, 8) && !MaskHas(mask, 9);
    assert !MaskHas(mask, 10) && !MaskHas(mask, 11) && !MaskHas(mask, 12) && !MaskHas(mask, 13) && !MaskHas(mask, 14);
  }

  /** Or-ing two masks within the attribute bits stays within them. */
  lemma OrStaysWithin(mask: bv64, c: bv64)
    requires mask & !ALL_ATTRIBUTE_BITS == 0 && c & !ALL_ATTRIBUTE_BITS == 0
    ensures (mask | c) & !ALL_ATTRIBUTE_BITS == 0
  {
  }

  /**
   * `into_native`: start from a zeroed record and an empty mask, and for
   * every attribute that is set, in value-mask bit order, copy its native
   * value and add its value-mask constant.
   */
  method IntoNative(a: Attributes) returns (mask: bv64, native: NativeAttributes)
    ensures forall b: nat :: b < ATTRIBUTE_COUNT ==> (MaskHas(mask, b) <==> Lookup(a, b).Some?)
    ensures mask & !ALL_ATTRIBUTE_BITS == 0
    ensures (forall b: nat :: Lookup(a, b).None?) ==> mask == 0 && native == ZEROED
    ensures forall b: nat :: b < ATTRIBUTE_COUNT ==>
              NativeField(native, b) == (if Lookup(a, b).Some? then NativeValue(Lookup(a, b).value) else 0)
  {
    mask := 0;
    native := ZEROED;
    var bit: nat := 0;
    while bit < ATTRIBUTE_COUNT
      invariant bit <= ATTRIBUTE_COUNT
      invariant mask & !ALL_ATTRIBUTE_BITS == 0
      invariant forall b: nat :: b < ATTRIBUTE_COUNT ==> (MaskHas(mask, b) <==> b < bit && Lookup(a, b).Some?)
      invariant forall b: nat :: b < ATTRIBUTE_COUNT ==>
                  NativeField(native, b) == (if b < bit && Lookup(a, b).Some? then NativeValue(Lookup(a, b).value) else 0)
    {
      var s := Lookup(a, bit);
      if s.Some? {
        native := Store(native, s.value);
        forall b: nat | b < ATTRIBUTE_COUNT
          ensures MaskHas(mask | CW(bit), b) <==> MaskHas(mask, b) || b == bit
        {
          OrCW(mask, bit, b);
        }
        CWIsBit(bit);
        OrStaysWithin(mask, CW(bit));
        mask := mask | CW(bit);
      }
      bit := bit + 1;
    }
    if forall b: nat :: Lookup(a, b).None? {
      EmptyMask(mask);
      NativeDetermines(native, ZEROED);
    }
  }

  /** A native record is determined by its fifteen fields. */
  lemma NativeDetermines(n: NativeAttributes, n': NativeAttributes)
    requires forall b: nat :: b < ATTRIBUTE_COUNT ==> NativeField(n, b) == NativeField(n', b)
    ensures n == n'
  {
    assert NativeField(n, 0) == NativeField(n', 0) && NativeField(n, 1) == NativeField(n', 1) && NativeField(n, 2) == NativeField(n', 2);
    assert NativeField(n, 3) == NativeField(n', 3) && NativeField(n, 4) == NativeField(n', 4) && NativeField(n, 5) == NativeField(n', 5);
    assert NativeField(n, 6) == NativeField(n', 6) && NativeField(n, 7) == NativeField(n', 7) && NativeField(n, 8) == NativeField(n', 8);
    assert NativeField(n, 9) == NativeField(n', 9) && NativeField(n, 10) == NativeField(n', 10) && NativeField(n, 11) == NativeField(n', 11);
    assert NativeField(n, 12) == NativeField(n', 12) && NativeField(n, 13) == NativeField(n', 13) && NativeField(n, 14) == NativeField(n', 14);
  }

  // ---------------------------------------------------------------------
  // Child windows and the window tree
  // ---------------------------------------------------------------------

  /** The XCreateSimpleWindow call `create_simple_child_window` issues. */
  datatype SimpleCreateCall = SimpleCreateCall(display: int, parent: int, x: int, y: int, width: int, height: int, borderWidth: int, border: int, background: int)

  /**
   * `create_simple_child_window`: create a child of `parent`; `created` is
   * the handle the server library returns. The new window is owned.
   */
  function CreateSimpleChildWindow(parent: Window, x: int, y: int, width: int, height: int, borderWidth: int, border: int, background: int, created: int): (r: (Window, SimpleCreateCall))
    ensures r.0 == Window(created, parent.display, Owned)
    ensures r.1 == SimpleCreateCall(parent.display, parent.handle, x, y, width, height, borderWidth, border, background)
    ensures Drop(r.0) == Some(Release.XDestroyWindow(parent.display, created))
  {
    (Window(created, parent.display, Owned), SimpleCreateCall(parent.display, parent.handle, x, y, width, height, borderWidth, border, background))
  }

  /** The XCreateWindow call `create_child_window` issues. */
  datatype CreateCall = CreateCall(display: int, parent: int, x: int, y: int, width: int, height: int, borderWidth: int, depth: int, windowClass: int, visual: int, valueMask: bv64, attributes: NativeAttributes)

  /**
   * `create_child_window`: translate the attributes, create a child of
   * `parent` with them; the new window is owned.
   */
  method CreateChildWindow(parent: Window, x: int, y: int, width: int, height: int, borderWidth: int, depth: int, windowClass: WindowClass, visual: int, attributes: Attributes, created: int)
    returns (w: Window, call: CreateCall)
    ensures w == Window(created, parent.display, Owned)
    ensures call.display == parent.display && call.parent == parent.handle
    ensures call.x == x && call.y == y && call.width == width && call.height == height && call.borderWidth == borderWidth
    ensures call.windowClass == WindowClassToNative(windowClass) && call.visual == visual && call.depth == depth
    ensures forall b: nat :: b < ATTRIBUTE_COUNT ==> (MaskHas(call.valueMask, b) <==> Lookup(attributes, b).Some?)
    ensures forall b: nat :: b < ATTRIBUTE_COUNT && Lookup(attributes, b).Some? ==>
              NativeField(call.attributes, b) == NativeValue(Lookup(attributes, b).value)
  {
    var mask, native := IntoNative(attributes);
    call := CreateCall(parent.display, parent.handle, x, y, width, height, borderWidth, depth, WindowClassToNative(windowClass), visual, mask, native);
    w := Window(created, parent.display, Owned);
  }

  /** What XQueryTree fills in: root, parent, and the children array (or a null pointer). */
  datatype QueryTreeReply = QueryTreeReply(root: int, parent: int, childrenNull: bool, children: seq<int>)

  /** `XWindowTreeInfo`. */
  datatype TreeInfo = TreeInfo(root: Window, parent: Window, children: seq<Window>)

  /**
   * `query_tree`: wrap the reply's windows as foreign handles; no children
   * when the count is zero or the array is null. Also reports whether the
   * array was released with XFree (only when it was copied).
   */
  function QueryTree(w: Window, reply: QueryTreeReply): (r: (TreeInfo, bool))
    ensures r.0.root == Window(reply.root, w.display, Foreign)
    ensures r.0.parent == Window(reply.parent, w.display, Foreign)
    ensures r.1 <==> |reply.children| > 0 && !reply.childrenNull
    ensures r.1 ==> |r.0.children| == |reply.children|
    ensures !r.1 ==> r.0.children == []
    ensures forall i :: 0 <= i < |r.0.children| ==> r.0.children[i] == Window(reply.children[i], w.display, Foreign)
  {
    var children := if |reply.children| == 0 || reply.childrenNull then []
                    else seq(|reply.children|, i requires 0 <= i < |reply.children| => Window(reply.children[i], w.display, Foreign));
    (TreeInfo(Window(reply.root, w.display, Foreign), Window(reply.parent, w.display, Foreign), children), |reply.children| > 0 && !reply.childrenNull)
  }

  /** Dropping the whole tree information issues no release call. */
  lemma QueryTreeReleasesNothing(w: Window, reply: QueryTreeReply)
    ensures var t := QueryTree(w, reply).0;
            && Drop(t.root).None? && Drop(t.parent).None?
            && forall c :: c in t.children ==> Drop(c).None?
  {
  }
}
