/**
 * The release calls a resource handle may issue when it is dropped. Each
 * handle type decides, from the ownership tag it was built with, which of
 * these (if any) its `Drop` runs.
 */
module Release {

  datatype ReleaseCall =
    | XDestroyWindow(display: int, window: int)
    | XCompositeReleaseOverlayWindow(display: int, window: int)
    | XFreeColormap(display: int, colormap: int)
    | XFreeFont(display: int, font: int)
    | XCloseDisplay(display: int)
}
