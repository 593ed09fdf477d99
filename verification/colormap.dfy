/**
 * Colormaps (`XColormap`): a handle, the display it belongs to, and an
 * ownership tag fixed when the value is built that decides whether
 * dropping it frees the colormap on the server.
 */
module Colormap {
  import opened Wrappers
  import Release

  /** `ColormapUninstalled` and `ColormapInstalled`. */
  const COLORMAP_UNINSTALLED: int := 0
  const COLORMAP_INSTALLED: int := 1

  datatype ColormapState = Installed | Uninstalled

  predicate IsColormapState(state: int) {
    state == COLORMAP_INSTALLED || state == COLORMAP_UNINSTALLED
  }

  /** `ColormapState::new`; any other native value is unreachable. */
  function StateFromNative(state: int): (r: ColormapState)
    requires IsColormapState(state)
    ensures r.Installed? <==> state == COLORMAP_INSTALLED
  {
    if state == COLORMAP_INSTALLED then Installed else Uninstalled
  }

  /** The native value of a state (its `repr(i32)` discriminant). */
  function StateToNative(s: ColormapState): (r: int)
    ensures IsColormapState(r)
  {
    match s
    case Installed => COLORMAP_INSTALLED
    case Uninstalled => COLORMAP_UNINSTALLED
  }

  /** Decoding is the inverse of the discriminant, in both directions. */
  lemma StateRoundTrip(s: ColormapState, state: int)
    ensures StateFromNative(StateToNative(s)) == s
    ensures IsColormapState(state) ==> StateToNative(StateFromNative(state)) == state
  {
  }

  datatype Ownership = Foreign | Owned

  /** `XColormap`; the fields are private and never reassigned after `new`. */
  datatype Colormap = Colormap(handle: int, display: int, ownership: Ownership)

  /** `XColormap::new`. */
  function New(handle: int, display: int, ownership: Ownership): (r: Colormap)
    ensures Handle(r) == handle && r.display == display && r.ownership == ownership
  {
    Colormap(handle, display, ownership)
  }

  /** `handle`. */
  function Handle(c: Colormap): int {
    c.handle
  }

  /** `Drop`: free the colormap iff it is owned. */
  function Drop(c: Colormap): (r: Option<Release.ReleaseCall>)
    ensures r.Some? <==> c.ownership == Owned
    ensures r.Some? ==> r.value == Release.XFreeColormap(c.display, c.handle)
  {
    if c.ownership.Owned? then Some(Release.XFreeColormap(c.display, c.handle)) else None
  }
}
