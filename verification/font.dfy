/**
 * Fonts (`XFont`): loading by name, the default-font search, release on
 * drop, and the per-character metrics wrapper `XChar`.
 */
module Font {
  import opened Wrappers
  import opened Native
  import Release

  /** `XFont`: the loaded font structure, whether dropping it frees it, and its display. */
  datatype Font = Font(handle: int, owned: bool, display: int)

  /** `Drop`: free the font iff it is owned. */
  function Drop(f: Font): (r: Option<Release.ReleaseCall>)
    ensures r.Some? <==> f.owned
    ensures r.Some? ==> r.value == Release.XFreeFont(f.display, f.handle)
  {
    if f.owned then Some(Release.XFreeFont(f.display, f.handle)) else None
  }

  /** XLoadQueryFont as an oracle: the font structure pointer for a name, 0 for null. */
  type Loader = string -> int

  /** XGetDefault as an oracle: the resource value for a program and option name, if any. */
  type Defaults = (string, string) -> Option<string>

  /** XGetDefault hands back C strings, so no value it returns holds a NUL. */
  ghost predicate ReturnsCStrings(defaults: Defaults) {
    forall program, option :: defaults(program, option).Some? ==> NoNul(defaults(program, option).value)
  }

  /** `load_query_font`: a null result is no font; a loaded one is owned. */
  function LoadQueryFont(display: int, name: string, load: Loader): (r: Option<Font>)
    requires NoNul(name)
    ensures r.None? <==> load(name) == 0
    ensures r.Some? ==> r.value == Font(load(name), true, display)
  {
    var handle := load(name);
    if handle == 0 then None else Some(Font(handle, true, display))
  }

  /** The fallback names tried when no default font loads, in order. */
  const DEFAULT_FONT_NAMES: seq<string> := ["9x15", "8x13", "fixed"]

  /** The default font name: the "font" resource, or the "Font" resource when that is absent. */
  function DefaultFontName(program: string, defaults: Defaults): (r: Option<string>)
    requires NoNul(program)
    ensures ReturnsCStrings(defaults) && r.Some? ==> NoNul(r.value)
    ensures defaults(program, "font").Some? ==> r == defaults(program, "font")
    ensures defaults(program, "font").None? ==> r == defaults(program, "Font")
  {
    match defaults(program, "font")
    case Some(name) => Some(name)
    case None => defaults(program, "Font")
  }

  /** The first name of `names` that loads, if any, with the names tried (every one up to it). */
  function TryFonts(display: int, names: seq<string>, load: Loader): (r: (Option<Font>, seq<string>))
    requires forall i :: 0 <= i < |names| ==> NoNul(names[i])
    ensures r.1 <= names
    ensures r.0.None? <==> forall i :: 0 <= i < |names| ==> load(names[i]) == 0
    ensures r.0.None? ==> r.1 == names
    ensures r.0.Some? ==>
              && |r.1| > 0
              && r.0.value == Font(load(r.1[|r.1| - 1]), true, display)
              && load(r.1[|r.1| - 1]) != 0
              && forall i :: 0 <= i < |r.1| - 1 ==> load(r.1[i]) == 0
  {
    if names == [] then (None, [])
    else
      match LoadQueryFont(display, names[0], load)
      case Some(f) => (Some(f), [names[0]])
      case None =>
        var (f, tried) := TryFonts(display, names[1..], load);
        (f, [names[0]] + tried)
  }

  /**
   * `find_default`: load the default font name if there is one; when
   * there is none or it does not load, the first fallback name that loads.
   * Returns the font and every name passed to the loader, in order.
   */
  function FindDefault(program: string, display: int, defaults: Defaults, load: Loader): (r: (Option<Font>, seq<string>))
    requires NoNul(program) && ReturnsCStrings(defaults)
    ensures var candidates := (if DefaultFontName(program, defaults).Some? then [DefaultFontName(program, defaults).value] else []) + DEFAULT_FONT_NAMES;
            && r.1 <= candidates
            && (r.0.None? <==> forall i :: 0 <= i < |candidates| ==> load(candidates[i]) == 0)
            && (r.0.Some? ==>
                  && |r.1| > 0
                  && r.0.value == Font(load(r.1[|r.1| - 1]), true, display)
                  && load(r.1[|r.1| - 1]) != 0
                  && forall i :: 0 <= i < |r.1| - 1 ==> load(r.1[i]) == 0)
  {
    var name := DefaultFontName(program, defaults);
    var font := if name.Some? then LoadQueryFont(display, name.value, load) else None;
    if font.Some? then
      assert load(([name.value] + DEFAULT_FONT_NAMES)[0]) != 0;
      (font, [name.value])
    else
      var (f, tried) := TryFonts(display, DEFAULT_FONT_NAMES, load);
      var prefix := if name.Some? then [name.value] else [];
      assert forall i :: 0 <= i < |prefix| ==> load(prefix[i]) == 0;
      ConcatFailing(prefix, DEFAULT_FONT_NAMES, tried, load);
      (f, prefix + tried)
  }

  /** Prefixing names that all fail to load keeps the shape of a search result. */
  lemma ConcatFailing(prefix: seq<string>, names: seq<string>, tried: seq<string>, load: Loader)
    requires forall i :: 0 <= i < |prefix| ==> load(prefix[i]) == 0
    requires tried <= names
    ensures prefix + tried <= prefix + names
    ensures (forall i :: 0 <= i < |prefix + names| ==> load((prefix + names)[i]) == 0) <==> (forall i :: 0 <= i < |names| ==> load(names[i]) == 0)
    ensures |tried| > 0 ==> (prefix + tried)[|prefix + tried| - 1] == tried[|tried| - 1]
    ensures (forall i :: 0 <= i < |tried| - 1 ==> load(tried[i]) == 0) ==> (forall i :: 0 <= i < |prefix + tried| - 1 ==> load((prefix + tried)[i]) == 0)
  {
    if forall i :: 0 <= i < |names| ==> load(names[i]) == 0 {
      forall i | 0 <= i < |prefix + names| ensures load((prefix + names)[i]) == 0 {
        if i >= |prefix| { assert (prefix + names)[i] == names[i - |prefix|]; }
      }
    }
    if forall i :: 0 <= i < |prefix + names| ==> load((prefix + names)[i]) == 0 {
      forall i | 0 <= i < |names| ensures load(names[i]) == 0 {
        assert (prefix + names)[i + |prefix|] == names[i];
      }
    }
    if forall i :: 0 <= i < |tried| - 1 ==> load(tried[i]) == 0 {
      forall i | 0 <= i < |prefix + tried| - 1 ensures load((prefix + tried)[i]) == 0 {
        if i >= |prefix| { assert (prefix + tried)[i] == tried[i - |prefix|]; }
      }
    }
  }

  /** A default font that loads is the result, and no fallback is tried. */
  lemma DefaultWins(program: string, display: int, defaults: Defaults, load: Loader)
    requires NoNul(program) && ReturnsCStrings(defaults)
    requires DefaultFontName(program, defaults).Some?
    requires load(DefaultFontName(program, defaults).value) != 0
    ensures FindDefault(program, display, defaults, load) ==
            (Some(Font(load(DefaultFontName(program, defaults).value), true, display)), [DefaultFontName(program, defaults).value])
  {
  }

  /** With no usable default, "9x15" is tried first, then "8x13", then "fixed". */
  lemma FallbackOrder(program: string, display: int, defaults: Defaults, load: Loader)
    requires NoNul(program) && ReturnsCStrings(defaults)
    requires DefaultFontName(program, defaults).None?
    ensures load("9x15") != 0 ==> FindDefault(program, display, defaults, load).0 == Some(Font(load("9x15"), true, display))
    ensures load("9x15") == 0 && load("8x13") != 0 ==> FindDefault(program, display, defaults, load).0 == Some(Font(load("8x13"), true, display))
    ensures load("9x15") == 0 && load("8x13") == 0 ==> FindDefault(program, display, defaults, load).0 == LoadQueryFont(display, "fixed", load)
  {
    var names := DEFAULT_FONT_NAMES;
    assert names[0] == "9x15" && names[1..] == ["8x13", "fixed"];
    assert names[1..][0] == "8x13" && names[1..][1..] == ["fixed"];
    if load("9x15") == 0 {
      assert TryFonts(display, names, load) == (TryFonts(display, names[1..], load).0, ["9x15"] + TryFonts(display, names[1..], load).1);
    }
  }

  /** A font found by the search is always owned, so dropping it frees it. */
  lemma FoundFontIsFreed(program: string, display: int, defaults: Defaults, load: Loader)
    requires NoNul(program) && ReturnsCStrings(defaults)
    requires FindDefault(program, display, defaults, load).0.Some?
    ensures var f := FindDefault(program, display, defaults, load).0.value;
            Drop(f) == Some(Release.XFreeFont(display, f.handle))
  {
  }

  /** `XCharStruct`. */
  datatype CharStruct = CharStruct(lbearing: int, rbearing: int, width: int, ascent: int, descent: int, attributes: int)

  /** `XChar`: a wrapped `XCharStruct`. */
  datatype Char = Char(handle: CharStruct)

  function NewChar(handle: CharStruct): Char {
    Char(handle)
  }

  function LeftBearing(c: Char): int { c.handle.lbearing }
  function RightBearing(c: Char): int { c.handle.rbearing }
  function Width(c: Char): int { c.handle.width }
  function Ascent(c: Char): int { c.handle.ascent }
  function Descent(c: Char): int { c.handle.descent }
  function Attributes(c: Char): int { c.handle.attributes }

  /** The accessors give back the wrapped fields, which together determine the character. */
  lemma CharAccessors(h: CharStruct, c: Char, c': Char)
    ensures var c0 := NewChar(h);
            && LeftBearing(c0) == h.lbearing && RightBearing(c0) == h.rbearing && Width(c0) == h.width
            && Ascent(c0) == h.ascent && Descent(c0) == h.descent && Attributes(c0) == h.attributes
    ensures (&& LeftBearing(c) == LeftBearing(c') && RightBearing(c) == RightBearing(c') && Width(c) == Width(c')
             && Ascent(c) == Ascent(c') && Descent(c) == Descent(c') && Attributes(c) == Attributes(c')) ==> c == c'
  {
  }
}
