/**
 * The small enumerations carried by decoded events, each with its native
 * discriminant (`repr(i32)`) and the partial decoder the wrapper uses on
 * incoming fields. A decoder panics (`unreachable!`) on any value it does
 * not list, so each one requires the native value to be one it lists.
 * Values are those of Xlib's X.h, XInput2's XI2.h and XFixes' xfixes.h.
 */
module EventEnums {

  /** `VisibilityState`: VisibilityUnobscured 0, VisibilityPartiallyObscured 1, VisibilityFullyObscured 2. */
  datatype VisibilityState = Unobscured | PartiallyObscured | FullyObscured

  predicate IsVisibilityState(n: int) { 0 <= n <= 2 }

  function VisibilityToNative(v: VisibilityState): (r: int)
    ensures IsVisibilityState(r)
  {
    match v
    case Unobscured => 0
    case PartiallyObscured => 1
    case FullyObscured => 2
  }

  function VisibilityFromNative(n: int): (r: VisibilityState)
    requires IsVisibilityState(n)
    ensures VisibilityToNative(r) == n
  {
    if n == 0 then Unobscured else if n == 1 then PartiallyObscured else FullyObscured
  }

  /** `MappingRequestType`: MappingModifier 0, MappingKeyboard 1, MappingPointer 2. */
  datatype MappingRequestType = Modifier | Keyboard | Pointer

  predicate IsMappingRequestType(n: int) { 0 <= n <= 2 }

  function MappingToNative(m: MappingRequestType): (r: int)
    ensures IsMappingRequestType(r)
  {
    match m
    case Modifier => 0
    case Keyboard => 1
    case Pointer => 2
  }

  function MappingFromNative(n: int): (r: MappingRequestType)
    requires IsMappingRequestType(n)
    ensures MappingToNative(r) == n
  {
    if n == 0 then Modifier else if n == 1 then Keyboard else Pointer
  }

  /** `ConfigureDetail`: Above 0, Below 1, TopIf 2, BottomIf 3, Opposite 4. */
  datatype ConfigureDetail = Above | Below | TopIf | BottomIf | Opposite

  predicate IsConfigureDetail(n: int) { 0 <= n <= 4 }

  function ConfigureDetailToNative(d: ConfigureDetail): (r: int)
    ensures IsConfigureDetail(r)
  {
    match d
    case Above => 0
    case Below => 1
    case TopIf => 2
    case BottomIf => 3
    case Opposite => 4
  }

  function ConfigureDetailFromNative(n: int): (r: ConfigureDetail)
    requires IsConfigureDetail(n)
    ensures ConfigureDetailToNative(r) == n
  {
    if n == 0 then Above
    else if n == 1 then Below
    else if n == 2 then TopIf
    else if n == 3 then BottomIf
    else Opposite
  }

  /** `CirculatePlace`: PlaceOnTop 0, PlaceOnBottom 1. */
  datatype CirculatePlace = Top | Bottom

  predicate IsCirculatePlace(n: int) { n == 0 || n == 1 }

  function PlaceToNative(p: CirculatePlace): (r: int)
    ensures IsCirculatePlace(r)
  {
    match p
    case Top => 0
    case Bottom => 1
  }

  function PlaceFromNative(n: int): (r: CirculatePlace)
    requires IsCirculatePlace(n)
    ensures PlaceToNative(r) == n
  {
    if n == 0 then Top else Bottom
  }

  /** `PropertyState`: PropertyNewValue 0, PropertyDelete 1. */
  datatype PropertyState = NewValue | Delete

  predicate IsPropertyState(n: int) { n == 0 || n == 1 }

  function PropertyStateToNative(s: PropertyState): (r: int)
    ensures IsPropertyState(r)
  {
    match s
    case NewValue => 0
    case Delete => 1
  }

  function PropertyStateFromNative(n: int): (r: PropertyState)
    requires IsPropertyState(n)
    ensures PropertyStateToNative(r) == n
  {
    if n == 0 then NewValue else Delete
  }

  /**
   * `NotifyMode`: NotifyNormal 0, NotifyGrab 1, NotifyUngrab 2. The
   * protocol's NotifyWhileGrabbed (3) is not listed by the wrapper, so a
   * focus event carrying it cannot be decoded.
   */
  datatype NotifyMode = Normal | Grab | Ungrab

  predicate IsNotifyMode(n: int) { 0 <= n <= 2 }

  function NotifyModeToNative(m: NotifyMode): (r: int)
    ensures IsNotifyMode(r)
  {
    match m
    case Normal => 0
    case Grab => 1
    case Ungrab => 2
  }

  function NotifyModeFromNative(n: int): (r: NotifyMode)
    requires IsNotifyMode(n)
    ensures NotifyModeToNative(r) == n
  {
    if n == 0 then Normal else if n == 1 then Grab else Ungrab
  }

  /**
   * `NotifyDetail`: NotifyAncestor 0, NotifyVirtual 1, NotifyInferior 2,
   * NotifyNonlinear 3, NotifyNonlinearVirtual 4, NotifyPointer 5,
   * NotifyPointerRoot 6, NotifyDetailNone 7. XInput2's `XIFocusEventDetail`
   * uses the same eight values (XINotifyAncestor … XINotifyDetailNone).
   */
  datatype NotifyDetail = Ancestor | Virtual | Inferior | Nonlinear | NonlinearVirtual | PointerDetail | PointerRoot | DetailNone

  predicate IsNotifyDetail(n: int) { 0 <= n <= 7 }

  function NotifyDetailToNative(d: NotifyDetail): (r: int)
    ensures IsNotifyDetail(r)
  {
    match d
    case Ancestor => 0
    case Virtual => 1
    case Inferior => 2
    case Nonlinear => 3
    case NonlinearVirtual => 4
    case PointerDetail => 5
    case PointerRoot => 6
    case DetailNone => 7
  }

  function NotifyDetailFromNative(n: int): (r: NotifyDetail)
    requires IsNotifyDetail(n)
    ensures NotifyDetailToNative(r) == n
  {
    if n == 0 then Ancestor
    else if n == 1 then Virtual
    else if n == 2 then Inferior
    else if n == 3 then Nonlinear
    else if n == 4 then NonlinearVirtual
    else if n == 5 then PointerDetail
    else if n == 6 then PointerRoot
    else DetailNone
  }

  /** `XDisplayCursorEventSubtype`: only XFixesDisplayCursorNotify (0). */
  datatype CursorSubtype = CursorNotify

  predicate IsCursorSubtype(n: int) { n == 0 }

  function CursorSubtypeToNative(s: CursorSubtype): (r: int)
    ensures IsCursorSubtype(r)
  {
    0
  }

  function CursorSubtypeFromNative(n: int): (r: CursorSubtype)
    requires IsCursorSubtype(n)
    ensures CursorSubtypeToNative(r) == n
  {
    CursorNotify
  }

  /** `XIValuatorMode`: XIModeRelative 0, XIModeAbsolute 1. */
  datatype ValuatorMode = Relative | Absolute

  predicate IsValuatorMode(n: int) { n == 0 || n == 1 }

  function ValuatorModeToNative(m: ValuatorMode): (r: int)
    ensures IsValuatorMode(r)
  {
    match m
    case Relative => 0
    case Absolute => 1
  }

  function ValuatorModeFromNative(n: int): (r: ValuatorMode)
    requires IsValuatorMode(n)
    ensures ValuatorModeToNative(r) == n
  {
    if n == 1 then Absolute else Relative
  }

  /** `XIScrollType`: XIScrollTypeVertical 1, XIScrollTypeHorizontal 2. */
  datatype ScrollType = Vertical | Horizontal

  predicate IsScrollType(n: int) { n == 1 || n == 2 }

  function ScrollTypeToNative(t: ScrollType): (r: int)
    ensures IsScrollType(r)
  {
    match t
    case Vertical => 1
    case Horizontal => 2
  }

  function ScrollTypeFromNative(n: int): (r: ScrollType)
    requires IsScrollType(n)
    ensures ScrollTypeToNative(r) == n
  {
    if n == 1 then Vertical else Horizontal
  }

  /** `XITouchMode`: XIDirectTouch 1, XIDependentTouch 2. */
  datatype TouchMode = Direct | Dependent

  predicate IsTouchMode(n: int) { n == 1 || n == 2 }

  function TouchModeToNative(m: TouchMode): (r: int)
    ensures IsTouchMode(r)
  {
    match m
    case Direct => 1
    case Dependent => 2
  }

  function TouchModeFromNative(n: int): (r: TouchMode)
    requires IsTouchMode(n)
    ensures TouchModeToNative(r) == n
  {
    if n == 1 then Direct else Dependent
  }

  /** `XIDeviceChangeReason`: XISlaveSwitch 1, XIDeviceChange 2. */
  datatype DeviceChangeReason = SlaveSwitch | DeviceChange

  predicate IsDeviceChangeReason(n: int) { n == 1 || n == 2 }

  function ReasonToNative(r0: DeviceChangeReason): (r: int)
    ensures IsDeviceChangeReason(r)
  {
    match r0
    case SlaveSwitch => 1
    case DeviceChange => 2
  }

  function ReasonFromNative(n: int): (r: DeviceChangeReason)
    requires IsDeviceChangeReason(n)
    ensures ReasonToNative(r) == n
  {
    if n == 1 then SlaveSwitch else DeviceChange
  }

  /**
   * `XIFocusEventMode`: XINotifyNormal 0, XINotifyGrab 1, XINotifyUngrab 2.
   * XI2.h also defines XINotifyWhileGrabbed 3, XINotifyPassiveGrab 4 and
   * XINotifyPassiveUngrab 5, which the wrapper does not list.
   */
  datatype FocusEventMode = FocusNormal | FocusGrab | FocusUngrab

  predicate IsFocusEventMode(n: int) { 0 <= n <= 2 }

  function FocusModeToNative(m: FocusEventMode): (r: int)
    ensures IsFocusEventMode(r)
  {
    match m
    case FocusNormal => 0
    case FocusGrab => 1
    case FocusUngrab => 2
  }

  function FocusModeFromNative(n: int): (r: FocusEventMode)
    requires IsFocusEventMode(n)
    ensures FocusModeToNative(r) == n
  {
    if n == 0 then FocusNormal else if n == 1 then FocusGrab else FocusUngrab
  }

  /** `XIPropertyEventChange`: XIPropertyDeleted 0, XIPropertyCreated 1, XIPropertyModified 2. */
  datatype PropertyChange = Deleted | Created | Modified

  predicate IsPropertyChange(n: int) { 0 <= n <= 2 }

  function PropertyChangeToNative(c: PropertyChange): (r: int)
    ensures IsPropertyChange(r)
  {
    match c
    case Deleted => 0
    case Created => 1
    case Modified => 2
  }

  function PropertyChangeFromNative(n: int): (r: PropertyChange)
    requires IsPropertyChange(n)
    ensures PropertyChangeToNative(r) == n
  {
    if n == 0 then Deleted else if n == 1 then Created else Modified
  }

  /** Every decoder inverts its discriminant: decoding the native value of a variant gives the variant back. */
  lemma DecodersInvertDiscriminants(
    v: VisibilityState, m: MappingRequestType, c: ConfigureDetail, p: CirculatePlace,
    s: PropertyState, nm: NotifyMode, nd: NotifyDetail, vm: ValuatorMode, st: ScrollType,
    tm: TouchMode, dr: DeviceChangeReason, fm: FocusEventMode, pc: PropertyChange)
    ensures VisibilityFromNative(VisibilityToNative(v)) == v
    ensures MappingFromNative(MappingToNative(m)) == m
    ensures ConfigureDetailFromNative(ConfigureDetailToNative(c)) == c
    ensures PlaceFromNative(PlaceToNative(p)) == p
    ensures PropertyStateFromNative(PropertyStateToNative(s)) == s
    ensures NotifyModeFromNative(NotifyModeToNative(nm)) == nm
    ensures NotifyDetailFromNative(NotifyDetailToNative(nd)) == nd
    ensures ValuatorModeFromNative(ValuatorModeToNative(vm)) == vm
    ensures ScrollTypeFromNative(ScrollTypeToNative(st)) == st
    ensures TouchModeFromNative(TouchModeToNative(tm)) == tm
    ensures ReasonFromNative(ReasonToNative(dr)) == dr
    ensures FocusModeFromNative(FocusModeToNative(fm)) == fm
    ensures PropertyChangeFromNative(PropertyChangeToNative(pc)) == pc
  {
  }
}
