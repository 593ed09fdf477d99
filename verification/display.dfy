/**
 * The display connection (`XDisplay`): opening it, the extension codes it
 * caches, atom lookup, the image-size check of `create_image`, the
 * argument mapping of `warp_pointer` and `fake_motion_event`, and closing
 * it on drop.
 */
module Display {
  import opened Wrappers
  import opened Native
  import Release
  import Atom
  import Window

  /** `DisplayOwnership`. */
  datatype Ownership = Owned | Foreign

  /**
   * `XDisplay`: the connection handle (0 never occurs: a null handle is
   * an open failure) and the XFixes event base and XInput2 major opcode
   * queried once when the value is built.
   */
  datatype Display = Display(ownership: Ownership, handle: int, xfixesEventBase: int, xinput2Opcode: int)

  /** `XLibError`. */
  datatype XLibError = OpenDisplayFailed(name: string)

  /**
   * `from_ptr`: wrap a handle and cache the extension codes. The two
   * queries are foreign; `xfixesEventBase` and `xinput2Opcode` are what they
   * leave in the out-parameters (0 when the extension is absent).
   */
  function FromPtr(handle: int, ownership: Ownership, xfixesEventBase: int, xinput2Opcode: int): (r: Display)
    ensures Handle(r) == handle && r.ownership == ownership
    ensures XfixesEventBase(r) == xfixesEventBase && Xinput2Opcode(r) == xinput2Opcode
  {
    Display(ownership, handle, xfixesEventBase, xinput2Opcode)
  }

  function Handle(d: Display): int { d.handle }

  /** `xfixes_event_base`. */
  function XfixesEventBase(d: Display): int { d.xfixesEventBase }

  /** `xinput2_opcode`. */
  function Xinput2Opcode(d: Display): int { d.xinput2Opcode }

  /**
   * `open`: `openResult` is what XOpenDisplay returns (0 for null) and
   * `displayName` is XDisplayName, both as oracles. A failure names the
   * display XDisplayName resolves, or "<unknown>".
   */
  function Open(name: Option<string>, openResult: int, displayName: Option<string> -> Option<string>, xfixesEventBase: int, xinput2Opcode: int): (r: Result<Display, XLibError>)
    requires name.Some? ==> NoNul(name.value)
    ensures r.Failure? <==> openResult == 0
    ensures r.Failure? ==> r.error == OpenDisplayFailed(displayName(name).GetOr("<unknown>"))
    ensures r.Success? ==> r.value == FromPtr(openResult, Owned, xfixesEventBase, xinput2Opcode)
  {
    if openResult == 0 then
      Failure(OpenDisplayFailed(match displayName(name) case Some(n) => n case None => "<unknown>"))
    else
      Success(FromPtr(openResult, Owned, xfixesEventBase, xinput2Opcode))
  }

  /** `Drop`: close the connection iff it is owned. */
  function Drop(d: Display): (r: Option<Release.ReleaseCall>)
    ensures r.Some? <==> d.ownership == Owned
    ensures r.Some? ==> r.value == Release.XCloseDisplay(d.handle)
  {
    if d.ownership == Owned then Some(Release.XCloseDisplay(d.handle)) else None
  }

  /** An opened display is owned: dropping it closes exactly the connection it opened. */
  lemma OpenedIsClosed(name: Option<string>, openResult: int, displayName: Option<string> -> Option<string>, xfixesEventBase: int, xinput2Opcode: int)
    requires name.Some? ==> NoNul(name.value)
    requires openResult != 0
    ensures var r := Open(name, openResult, displayName, xfixesEventBase, xinput2Opcode);
            r.Success? && Drop(r.value) == Some(Release.XCloseDisplay(openResult))
            && XfixesEventBase(r.value) == xfixesEventBase && Xinput2Opcode(r.value) == xinput2Opcode
  {
  }

  // ---------------------------------------------------------------------
  // Atoms
  // ---------------------------------------------------------------------

  /** XInternAtom as an oracle: the atom id for a name and an only-if-exists flag, 0 for none. */
  type Interner = (string, int) -> int

  /** `get_atom`: look up without creating; a 0 id means the atom does not exist. */
  function GetAtom(d: Display, name: string, intern: Interner): (r: Option<Atom.Atom>)
    requires NoNul(name)
    ensures r.None? <==> intern(name, 1) == Atom.NONE
    ensures r.Some? ==> r.value == Atom.Atom(intern(name, 1), d.handle)
  {
    var atom := intern(name, 1);
    if atom == Atom.NONE then None else Some(Atom.Atom(atom, d.handle))
  }

  /** `get_or_create_atom`: look up, creating the atom if needed; a 0 id fails the debug assertion. */
  function GetOrCreateAtom(d: Display, name: string, intern: Interner): (r: Result<Atom.Atom, Panic>)
    requires NoNul(name)
    ensures r.Failure? <==> intern(name, 0) == Atom.NONE
    ensures r.Success? ==> r.value == Atom.Atom(intern(name, 0), d.handle)
  {
    var atom := intern(name, 0);
    if atom == Atom.NONE then Failure(AssertionFailed("atom != 0")) else Success(Atom.Atom(atom, d.handle))
  }

  // ---------------------------------------------------------------------
  // Reference model of the server's atom table (the InternAtom request of
  // the X Window System protocol), used only to state what lookups return.
  // ---------------------------------------------------------------------

  /** The server's atoms: atom `i + 1` names `names[i]`; a new name gets the next atom. */
  datatype AtomTable = AtomTable(names: seq<string>)

  /** Every name is interned at most once. */
  predicate Distinct(t: AtomTable) {
    forall i, j :: 0 <= i < j < |t.names| ==> t.names[i] != t.names[j]
  }

  /** The position of the first occurrence of a name. */
  function IndexOf(names: seq<string>, name: string): (r: nat)
    requires name in names
    ensures r < |names| && names[r] == name
    ensures forall j :: 0 <= j < r ==> names[j] != name
  {
    if names[0] == name then 0 else 1 + IndexOf(names[1..], name)
  }

  /**
   * InternAtom against the table, with the table after the request: a
   * known name gives its atom; an unknown one gives None when only an
   * existing atom is wanted, and otherwise a new atom naming it.
   */
  function Intern(t: AtomTable, name: string, onlyIfExists: int): (r: (int, AtomTable))
    ensures r.0 == Atom.NONE <==> name !in t.names && onlyIfExists != 0
    ensures r.0 != Atom.NONE ==> 1 <= r.0 <= |r.1.names| && r.1.names[r.0 - 1] == name
    ensures t.names <= r.1.names && |r.1.names| <= |t.names| + 1
    ensures name in t.names ==> r.1 == t
    ensures Distinct(t) ==> Distinct(r.1)
  {
    if name in t.names then (IndexOf(t.names, name) + 1, t)
    else if onlyIfExists != 0 then (Atom.NONE, t)
    else (|t.names| + 1, AtomTable(t.names + [name]))
  }

  /** The table answering every XInternAtom call of the wrapper. */
  function InternerOf(t: AtomTable): Interner {
    (name: string, onlyIfExists: int) => Intern(t, name, onlyIfExists).0
  }

  /** An interner is consistent when creating an atom that exists gives the atom a lookup finds. */
  ghost predicate Consistent(intern: Interner) {
    forall name :: intern(name, 1) != Atom.NONE ==> intern(name, 0) == intern(name, 1)
  }

  /** A server's atom table is a consistent interner. */
  lemma TableIsConsistent(t: AtomTable)
    ensures Consistent(InternerOf(t))
  {
    forall name | InternerOf(t)(name, 1) != Atom.NONE
      ensures InternerOf(t)(name, 0) == InternerOf(t)(name, 1)
    {
      assert name in t.names;
    }
  }

  /**
   * Against a server's table, `get_atom` finds exactly the names already
   * interned, `get_or_create_atom` never fails its assertion, and both give
   * the same atom for a name that exists.
   */
  lemma AtomLookups(d: Display, name: string, t: AtomTable)
    requires NoNul(name)
    ensures GetAtom(d, name, InternerOf(t)).Some? <==> name in t.names
    ensures GetOrCreateAtom(d, name, InternerOf(t)).Success?
    ensures GetAtom(d, name, InternerOf(t)).Some? ==> GetOrCreateAtom(d, name, InternerOf(t)) == Success(GetAtom(d, name, InternerOf(t)).value)
  {
    TableIsConsistent(t);
  }

  /** An atom `get_or_create_atom` creates is the one `get_atom` finds afterwards. */
  lemma CreatedIsFound(d: Display, name: string, t: AtomTable)
    requires NoNul(name)
    ensures var created := GetOrCreateAtom(d, name, InternerOf(t));
            var t' := Intern(t, name, 0).1;
            created.Success? && GetAtom(d, name, InternerOf(t')) == Some(created.value)
  {
    var t' := Intern(t, name, 0).1;
    var id := Intern(t, name, 0).0;
    if name !in t.names {
      assert t'.names == t.names + [name];
      assert IndexOf(t'.names, name) == |t.names| by {
        var k := IndexOf(t'.names, name);
        assert t'.names[k] == name;
      }
    }
  }

  /** In a table that interns every name once, different names have different atoms. */
  lemma DistinctNamesDistinctAtoms(d: Display, a: string, b: string, t: AtomTable)
    requires NoNul(a) && NoNul(b) && Distinct(t) && a != b
    requires a in t.names && b in t.names
    ensures GetAtom(d, a, InternerOf(t)).value != GetAtom(d, b, InternerOf(t)).value
  {
    var i := IndexOf(t.names, a);
    var j := IndexOf(t.names, b);
    assert i != j;
  }

  // ---------------------------------------------------------------------
  // Images
  // ---------------------------------------------------------------------

  /** `XBitmapPadding`: the scan-line quantum in bits. */
  datatype BitmapPadding = Pad8 | Pad16 | Pad32

  function PadBits(p: BitmapPadding): (r: nat)
    ensures r == 8 || r == 16 || r == 32
  {
    match p
    case Pad8 => 8
    case Pad16 => 16
    case Pad32 => 32
  }

  /** A `u32` operation that panics on overflow, as in a debug build. */
  function CheckedU32(x: int, what: string): (r: Result<int, Panic>)
    ensures r.Success? <==> 0 <= x < TWO_32
    ensures r.Success? ==> r.value == x
  {
    if 0 <= x < TWO_32 then Success(x) else Failure(ArithmeticOverflow(what))
  }

  /**
   * The XCreateImage call: the data is copied into a fresh buffer the image
   * then owns; a 0 line length means "compute it". Offset and line length
   * arrive as C `int`, after an `as` cast from `u32` and `usize`.
   */
  datatype ImageCall = ImageCall(display: int, visual: int, depth: int, format: int, offset: int, data: seq<bv8>, width: int, height: int, bitmapPad: int, bytesPerLine: int)

  /** The number of data bytes `create_image` demands, in its own `u32` arithmetic. */
  function ExpectedBytes(offset: nat, width: nat, height: nat, pad: BitmapPadding, bytesPerLine: Option<nat>): (r: Result<int, Panic>)
    requires offset < TWO_32 && width < TWO_32 && height < TWO_32
    ensures bytesPerLine.Some? ==>
              (r.Success? <==> height * WrapU32(bytesPerLine.value) < TWO_32 && height * WrapU32(bytesPerLine.value) + offset < TWO_32)
    ensures bytesPerLine.Some? && r.Success? ==> r.value == height * WrapU32(bytesPerLine.value) + offset
    ensures bytesPerLine.None? ==>
              (r.Success? <==> height * width < TWO_32 && height * width * (PadBits(pad) / 8) < TWO_32
                               && height * width * (PadBits(pad) / 8) + offset < TWO_32)
    ensures bytesPerLine.None? && r.Success? ==> r.value == height * width * (PadBits(pad) / 8) + offset
  {
    match bytesPerLine
    case Some(bpl) => LineBytes(offset, height, WrapU32(bpl))
    case None => PixelBytes(offset, width, height, PadBits(pad) / 8)
  }

  /** The size with an explicit line length: `height * bytes_per_line + offset`, each step checked. */
  function LineBytes(offset: nat, height: nat, bpl: nat): (r: Result<int, Panic>)
    ensures r.Success? <==> height * bpl < TWO_32 && height * bpl + offset < TWO_32
    ensures r.Success? ==> r.value == height * bpl + offset
  {
    var lines := height * bpl;
    match CheckedU32(lines, "height * bytes_per_line")
    case Failure(e) => Failure(e)
    case Success(_) => CheckedU32(lines + offset, "+ offset")
  }

  /** The size from the pixel count: `height * width * (bits / 8) + offset`, each step checked. */
  function PixelBytes(offset: nat, width: nat, height: nat, unit: nat): (r: Result<int, Panic>)
    ensures r.Success? <==> height * width < TWO_32 && height * width * unit < TWO_32 && height * width * unit + offset < TWO_32
    ensures r.Success? ==> r.value == height * width * unit + offset
  {
    var pixels := height * width;
    var bytes := pixels * unit;
    match CheckedU32(pixels, "height * width")
    case Failure(e) => Failure(e)
    case Success(_) =>
      match CheckedU32(bytes, "* (bits / 8)")
      case Failure(e) => Failure(e)
      case Success(_) => CheckedU32(bytes + offset, "+ offset")
  }

  /**
   * `create_image`: check the data length (taken as `u32`) against the
   * expected size, then hand a copy of the data to XCreateImage.
   * Arguments are `u32` in the source, hence the bounds.
   */
  function CreateImage(d: Display, visual: int, depth: nat, format: int, offset: nat, data: seq<bv8>, width: nat, height: nat, pad: BitmapPadding, bytesPerLine: Option<nat>): (r: Result<ImageCall, Panic>)
    requires depth < TWO_32 && offset < TWO_32 && width < TWO_32 && height < TWO_32
    requires bytesPerLine.Some? ==> bytesPerLine.value > 0
    ensures r.Success? <==> ExpectedBytes(offset, width, height, pad, bytesPerLine) == Success(WrapU32(|data|))
    ensures r.Success? ==> r.value.data == data && r.value.bitmapPad == PadBits(pad)
    ensures r.Success? ==> r.value.display == d.handle && r.value.visual == visual && r.value.depth == depth && r.value.format == format
    ensures r.Success? ==> r.value.width == width && r.value.height == height
    ensures r.Success? ==> r.value.offset == WrapI32(offset) && r.value.bytesPerLine == WrapI32(bytesPerLine.GetOr(0))
    ensures r.Success? && offset < 0x8000_0000 ==> r.value.offset == offset
    ensures r.Success? && bytesPerLine.None? ==> r.value.bytesPerLine == 0
  {
    match ExpectedBytes(offset, width, height, pad, bytesPerLine)
    case Failure(e) => Failure(e)
    case Success(expected) =>
      if expected != WrapU32(|data|) then Failure(AssertionFailed("expected_bytes == data.len()"))
      else Success(ImageCall(d.handle, visual, depth, format, WrapI32(offset), data, width, height, PadBits(pad), WrapI32(bytesPerLine.GetOr(0))))
  }

  /**
   * For data shorter than 4 GiB, `create_image` accepts exactly the data
   * whose length is `height * bytes_per_line + offset`, or
   * `height * width * (pad / 8) + offset` without an explicit line length.
   */
  lemma CreateImageAcceptsExactSize(d: Display, visual: int, depth: nat, format: int, offset: nat, data: seq<bv8>, width: nat, height: nat, pad: BitmapPadding, bytesPerLine: Option<nat>)
    requires depth < TWO_32 && offset < TWO_32 && width < TWO_32 && height < TWO_32
    requires bytesPerLine.Some? ==> 0 < bytesPerLine.value < TWO_32
    requires |data| < TWO_32
    ensures CreateImage(d, visual, depth, format, offset, data, width, height, pad, bytesPerLine).Success? <==>
            |data| == (if bytesPerLine.Some? then height * bytesPerLine.value else height * width * (PadBits(pad) / 8)) + offset
  {
    var r := CreateImage(d, visual, depth, format, offset, data, width, height, pad, bytesPerLine);
    var e := ExpectedBytes(offset, width, height, pad, bytesPerLine);
    assert WrapU32(|data|) == |data|;
    if bytesPerLine.Some? {
      var lines := height * bytesPerLine.value;
      assert WrapU32(bytesPerLine.value) == bytesPerLine.value;
      assert lines >= 0;
      assert e.Success? ==> e.value == lines + offset;
    } else {
      var pixels := height * width;
      assert pixels >= 0;
      var k := PadBits(pad) / 8;
      assert k == 1 || k == 2 || k == 4;
      assert pixels <= pixels * k;
      assert e.Success? ==> e.value == pixels * k + offset;
    }
  }

  // ---------------------------------------------------------------------
  // Pointer warping and XTest motion
  // ---------------------------------------------------------------------

  /** The XWarpPointer call; coordinates are C `int`, sizes C `unsigned int`. */
  datatype WarpCall = WarpCall(display: int, sourceWindow: int, destinationWindow: int, srcX: int, srcY: int, srcWidth: int, srcHeight: int, destX: int, destY: int)

  /** A source rectangle: x, y, width and height. */
  datatype Rect = Rect(x: nat, y: nat, width: nat, height: nat)

  /**
   * `warp_pointer`: a source rectangle requires a source window; an absent
   * window becomes 0 and an absent rectangle (0, 0, 0, 0); the `usize`
   * values are cast to the C types.
   */
  function WarpPointer(d: Display, sourceWindow: Option<Window.Window>, destinationWindow: Window.Window, sourceRect: Option<Rect>, destX: nat, destY: nat): (r: Result<WarpCall, Panic>)
    ensures r.Failure? <==> sourceRect.Some? && sourceWindow.None?
    ensures r.Success? ==>
              && r.value.display == d.handle
              && r.value.sourceWindow == (if sourceWindow.Some? then sourceWindow.value.handle else 0)
              && r.value.destinationWindow == destinationWindow.handle
              && (sourceRect.None? ==> r.value.srcX == 0 && r.value.srcY == 0 && r.value.srcWidth == 0 && r.value.srcHeight == 0)
              && (sourceRect.Some? ==>
                    && r.value.srcX == WrapI32(sourceRect.value.x) && r.value.srcY == WrapI32(sourceRect.value.y)
                    && r.value.srcWidth == WrapU32(sourceRect.value.width) && r.value.srcHeight == WrapU32(sourceRect.value.height))
              && r.value.destX == WrapI32(destX) && r.value.destY == WrapI32(destY)
  {
    if sourceRect.Some? && sourceWindow.None? then
      Failure(AssertionFailed("Can only specify a source rect if a source window is given"))
    else
      var source := match sourceWindow case Some(w) => Window.Handle(w) case None => 0;
      var rect := sourceRect.GetOr(Rect(0, 0, 0, 0));
      Success(WarpCall(d.handle, source, Window.Handle(destinationWindow), WrapI32(rect.x), WrapI32(rect.y), WrapU32(rect.width), WrapU32(rect.height), WrapI32(destX), WrapI32(destY)))
  }

  /** The XTest motion call `fake_motion_event` issues. */
  datatype MotionCall =
    | FakeRelativeMotion(display: int, screen: int, x: int, y: int, delay: int)
    | FakeMotion(display: int, screen: int, x: int, y: int, delay: int)

  /** `fake_motion_event`: no screen number means -1 (the current screen); `relative` picks the call. */
  function FakeMotionEvent(d: Display, screenNumber: Option<nat>, x: int, y: int, delay: nat, relative: bool): (r: MotionCall)
    requires screenNumber.Some? ==> screenNumber.value < TWO_32
    ensures r.FakeRelativeMotion? <==> relative
    ensures r.screen == (if screenNumber.Some? then WrapI32(screenNumber.value) else -1)
    ensures r.display == d.handle && r.x == x && r.y == y && r.delay == delay
  {
    var screen := match screenNumber case Some(v) => WrapI32(v) case None => -1;
    if relative then FakeRelativeMotion(d.handle, screen, x, y, delay) else FakeMotion(d.handle, screen, x, y, delay)
  }

  /** Screen numbers that fit an `i32` pass unchanged, so they never collide with the -1 of "current screen". */
  lemma FakeMotionScreen(d: Display, n: nat, x: int, y: int, delay: nat, relative: bool)
    requires n < 0x8000_0000
    ensures FakeMotionEvent(d, Some(n), x, y, delay, relative).screen == n
    ensures FakeMotionEvent(d, Some(n), x, y, delay, relative).screen != FakeMotionEvent(d, None, x, y, delay, relative).screen
  {
  }
}
