# wrap11 core, modelled in Dafny

This project models the safe layer that the wrap11 crate puts over Xlib and
its extensions: XFixes, XInput2, XComposite, XRandR and XTest. A display
connection, a window, a colormap and a font are each modelled as a handle
plus an ownership tag. Dropping one of them either releases the native
resource with one call (XDestroyWindow, XCompositeReleaseOverlayWindow,
XFreeColormap, XFreeFont, XCloseDisplay) or does nothing when the handle is
foreign. A cursor is a bare handle with no ownership tag and no drop. The
models and properties cover:

- window attributes, translated to the `XSetWindowAttributes` record and
  its `CW*` value mask;
- the property protocol of windows and XInput2 devices (read, change,
  delete and read completely), together with a reference model of the
  server's property store; format-32 data of a window travels through Xlib
  as C `long`s, so the model converts between the 4-byte protocol elements
  and 8-byte longs and states where the wrapper's slices disagree with them;
- the event decoder, which turns a native `XEvent` union into one of the
  typed variants, with the XInput2 cookie fetched and freed around the
  conversion;
- the smaller conversions: enum discriminants, client message data,
  cursor image RGBA, image size checks, atom lookup (checked against a
  reference model of the server's atom table), the font fallback chain,
  monitor enumeration and window trees.

Foreign calls are not executed. They appear in one of three ways:

- as function-typed parameters: the server's property reply, `XInternAtom`,
  `XLoadQueryFont`, `XGetDefault`, the EDID fetch and parse;
- as the value they return: a created window or colormap handle;
- as records of the call the wrapper issues: `GetRequest`,
  `ChangeRequest`, `ReleaseCall`, `WarpCall`, the event `Step` trace.

C unions are product records of all their views. `unreachable!` arms of the
enum decoders become preconditions. Debug-build integer overflow panics
become `Failure(Panic)` results. The numeric values of Xlib constants come
from X.h, XI2.h and Xfixes.h and are written out in the model.

One Dafny module per source file:

- `Wrappers`, `Bytes` (byte values), `Native` (integer casts, memory
  layout and the `long` conversion) and `Release` (release calls);
- `Atom`, `Property`, `Input`, `Window`, `Colormap`, `Cursor`, `Font`,
  `Display`, `Screen`;
- `EventEnums`, `CoreEvents`, `XInputEvents` and `Event` for event.rs.

## Model

The one-field getters (`Handle` of a colormap, cursor, window or display,
`XfixesEventBase`, `Xinput2Opcode`, `Input.Id` and the XChar getters) have
no row of their own: the rows of Colormap.New, Cursor.New, Window.New,
Display.FromPtr, Input.FromIdId and Font.CharAccessors state what they
return.

| member | source | states |
|---|---|---|
| Native.WrapU8 | src/x11/event.rs:1531-1539 | the `as u8` cast: result in 0..255, congruent to the input mod 2^8, identity on in-range values |
| Native.WrapU32 | src/x11/display.rs:315 | the `as u32` cast: result in 0..2^32-1, congruent mod 2^32, identity on in-range values |
| Native.WrapI8 | src/x11/event.rs:2108-2110 | the `as i8` cast: result in -128..127, congruent mod 2^8, identity on in-range values |
| Native.WrapI16 | src/x11/event.rs:2117-2119 | the `as i16` cast: result in -2^15..2^15-1, congruent mod 2^16, identity on in-range values |
| Native.WrapI32 | src/x11/display.rs:432 | the `as i32` cast: result in -2^31..2^31-1, congruent mod 2^32, identity on in-range values |
| Native.BoolToInt | src/x11/window.rs:810 | `i32::from(bool)` gives 0 or 1, and the value is non-zero exactly when the flag is true |
| Native.LittleEndian | src/x11/property.rs:286-308 | one element laid out in memory takes exactly `width` bytes |
| Native.Pow256 | src/x11/property.rs:286-340 | the number of values `width` bytes can hold is positive |
| Native.FromLittleEndian | src/x11/property.rs:286-340 | reading bytes least significant first gives a value below 256^width |
| Native.LittleEndianRoundTrip | src/x11/property.rs:286-340 | reading back the memory of a value gives the value modulo 256^width |
| Native.FromLittleEndianRoundTrip | src/x11/property.rs:286-340 | laying out the value read from some bytes gives those bytes back |
| Native.LittleEndianPrefix | src/x11/property.rs:286-340 | the first k bytes of a value's memory are its k-byte memory |
| Native.Layout | src/x11/property.rs:318-340 | a slice of n elements reinterpreted as bytes is `width * n` bytes long |
| Native.LayoutElement | src/x11/property.rs:286-340 | bytes `width*i` to `width*(i+1)` of a slice's memory are the memory of element i |
| Native.LayoutDecodes | src/x11/property.rs:286-340 | reading back element i of a slice's memory gives that element modulo 256^width |
| Native.SignFill | src/x11/window.rs:813-834 | the four high bytes of a sign-extended 32-bit element are 0 when its top bit is clear and 0xFF when it is set |
| Native.WidenToLongs | src/x11/window.rs:813-834 | n whole 4-byte protocol elements become n 8-byte C `long`s; a trailing partial element is dropped |
| Native.WidenElement | src/x11/window.rs:813-834 | long i of the widened buffer holds protocol element i in its low four bytes and that element's sign fill in its high four |
| Native.NarrowLongs | src/x11/window.rs:837-856 | each 8-byte C `long` is truncated to a 4-byte protocol element, so n longs give 4n bytes |
| Native.NarrowWiden | src/x11/window.rs:813-856 | narrowing widened elements gives back the whole elements |
| Native.NarrowLayout | src/x11/window.rs:837-856 | narrowing the memory of a slice of C longs gives the 4-byte layout of the same values |
| Native.WidenOneTwo | src/x11/window.rs:813-834 | the elements 1 and 2 are handed over as two 8-byte longs |
| Native.LayoutOneTwo | src/x11/property.rs:318-340 | the 4-byte memory of the slice [1, 2] is 1,0,0,0,2,0,0,0 |
| Native.NarrowPastOneTwo | src/x11/window.rs:837-856 | narrowing 16 bytes read from the 8-byte memory of [1, 2] keeps element 1 and takes the second element from the bytes after the slice |
| Property.FromNative | src/x11/property.rs:23-30 | formats 8, 16 and 32 map to Bit8, Bit16 and Bit32; every other value gives None |
| Property.ToNative | src/x11/property.rs:33-39 | every format's native value is 8, 16 or 32 and decodes back to that format |
| Property.FromNativeToNative | src/x11/property.rs:23-39 | decoding the native value of a format gives the format back |
| Property.ToNativeFromNative | src/x11/property.rs:23-39 | a native value that decodes is the native value of what it decodes to |
| Property.ByteCount | src/x11/property.rs:42-48 | an element takes 1, 2 or 4 bytes, and exactly native-format / 8 bytes |
| Property.ByteCountArray | src/x11/property.rs:55-57 | n elements take n times the element size; 0 elements take 0 bytes |
| Property.ByteSize | src/x11/property.rs:112-114 | the data's byte size is item count times element size |
| Property.AsSlice | src/x11/property.rs:117-119 | the slice is the first `byte_size` bytes of the buffer |
| Property.GetAsPtr | src/x11/property.rs:126-141 | reinterpreting as a type panics exactly when the type is larger than the data; otherwise it points at the buffer |
| Property.WrapReply | src/x11/window.rs:829-834 | no data exactly when the reported format is not 8, 16 or 32; otherwise the reported type, count, buffer and remaining bytes, unchanged |
| Property.GetProperty | src/x11/window.rs:796-835 | one read is issued with the caller's arguments and the delete flag as 0/1; the result is the wrapped reply to that read |
| Property.GetPropertyCompletely | src/x11/property.rs:349-364 | a zero-length probe read first; None after the probe alone when it fails; the probe's data when nothing remains; otherwise a second read of `remaining / 4` units with the caller's delete flag |
| Property.ChangePropertyUnsafe | src/x11/window.rs:837-856 | the change call carries the holder, atoms, data and element count unchanged, a native format that decodes to the given format, and the mode's native value |
| Property.ChangeProperty8 | src/x11/property.rs:260-276 | format 8, one element per byte, and the data fills exactly the element count |
| Property.ChangeProperty16 | src/x11/property.rs:286-308 | format 16, one element per slice entry, and the slice's 2-byte memory layout as data |
| Property.ChangeProperty32 | src/x11/property.rs:318-340 | format 32, one element per slice entry, and the slice's 4-byte memory layout as data |
| Property.DeleteProperty | src/x11/window.rs:858-860 | one delete call for that holder and property |
| Property.ClientElementBytes | src/x11/window.rs:796-856 | an element occupies its protocol size in the native buffers, except format 32 of a window, which occupies a C `long` |
| Property.ClientReply | src/x11/window.rs:813-834 | the reply XGetWindowProperty hands over keeps type, format, count and bytes-after; only a window's format-32 data is widened to longs |
| Property.NarrowReply | src/x11/window.rs:813-834 | converting a reply back keeps type, format, count and bytes-after, and changes nothing but a window's format-32 data |
| Property.NarrowClientReply | src/x11/window.rs:813-834 | narrowing the reply the native call hands over gives back the protocol reply of whole elements |
| Property.NativeReadLength | src/x11/window.rs:846 | the change call reads a C long per element for a window's format 32 and the protocol size per element otherwise, never less than the protocol bytes |
| Property.WireRequest | src/x11/window.rs:837-856 | the request the server receives differs only in its data, which holds the protocol byte count of the element count; for elements that are not longs those are the first bytes of the caller's memory |
| Property.GetPropertyCorrected | src/x11/window.rs:796-835 | the read issues the same request, and wraps the reply converted back to protocol elements |
| Property.ServerGetEffect | src/x11/property.rs:349-364 | a read never adds a property to the store; it deletes the property only when deletion was asked for, the type matched and nothing remains |
| Property.ServerDeleteProperty | src/x11/window.rs:858-860 | after a delete the property is gone and every other property is unchanged |
| Property.CompletelyMissing | src/x11/property.rs:355-356 | reading a missing property completely yields None after one request, with the code as written and corrected |
| Property.ProbeReply | src/x11/property.rs:355 | the zero-length probe of a readable property reports its format, no items and its whole length as remaining |
| Property.ElementsOf | src/x11/property.rs:42-48 | a multiple of 4 is a whole number of elements of every format |
| Property.PrefixRead | src/x11/property.rs:362 | a read of k units returns the property's first min(4k, length) bytes, a whole number of items, and the rest as remaining |
| Property.CompletelyTruncates | src/x11/property.rs:349-364 | as written, reading completely returns only the first 4 * (length / 4) bytes of the property; for format 32 of a window the slice is the first half of the widened longs, not the elements |
| Property.CompletelyTruncatesExample | src/x11/property.rs:362 | a 3-byte property is read as zero items and, with delete set, is not deleted |
| Property.Get32LongsExample | src/x11/property.rs:112-119 | as written, a window property holding the 32-bit items 1 and 2 is read as two items whose slice is the 8 bytes of the first long only |
| Property.CorrectedProbe | src/x11/property.rs:355 | the corrected probe of a readable property gives its format, type, no items and its whole length as remaining |
| Property.CorrectedSecondRead | src/x11/property.rs:362 | a second read of (length + 3) / 4 units returns the whole value with its format and type |
| Property.SecondWireReply | src/x11/property.rs:362 | on the wire, that read returns every stored byte, a whole number of items and nothing remaining |
| Property.SecondReadDeletes | src/x11/property.rs:362 | that read keeps the property exactly when deletion was not asked for |
| Property.GetPropertyCompletelyCorrected | src/x11/property.rs:349-364 | as evidently intended, the second read requests enough 4-byte units to cover every remaining byte |
| Property.CompletelyCorrectedReadsAll | src/x11/property.rs:349-364 | for a window or a device, the corrected complete read returns the stored value as its slice, with its format, type and byte size; a non-empty value takes two requests and is deleted exactly when asked |
| Property.CorrectedReadsData | src/x11/property.rs:349-364 | the corrected complete read returns the stored bytes with their format and type |
| Property.CorrectedReadsRequests | src/x11/property.rs:349-364 | a non-empty value is read by the zero-length probe and then one read of (length + 3) / 4 units with the caller's delete flag |
| Property.LayoutWellSized | src/x11/property.rs:286-340 | the memory of a slice is a whole number of elements of the format |
| Property.ReadBackStored | src/x11/property.rs:349-364 | a stored value of n whole elements is read back completely as n items with exactly those bytes |
| Property.Change8RoundTrip | src/x11/property.rs:260-276 | the change call reads exactly the slice; replacing a property with bytes and reading it completely (corrected read) gives those bytes back as format 8, one item per byte |
| Property.Change16RoundTrip | src/x11/property.rs:286-308 | the change call reads exactly the slice; replacing a property with 16-bit values and reading it completely gives their 2-byte layout back as format 16, one item per value |
| Property.Change32RoundTrip | src/x11/property.rs:318-340 | for a device, the change call reads exactly the slice; replacing a property with 32-bit values and reading it completely gives their 4-byte layout back as format 32, one item per value |
| Property.Change32ReadsPastSlice | src/x11/window.rs:837-856 | as written, the change call of a window reads 4 bytes per element beyond the slice it is given |
| Property.Change32PastSliceExample | src/x11/property.rs:318-340 | as written, changing a window property to [1, 2] sends element 1 and, as its second element, whatever 4 bytes follow the slice, which is 2 only by accident |
| Property.ChangeProperty32Corrected | src/x11/property.rs:318-340 | corrected, the data is the slice laid out as C longs for a window and as 4-byte values for a device, so the change call reads exactly the data |
| Property.Change32CorrectedWire | src/x11/property.rs:318-340 | corrected, the server receives the 4-byte layout of the values for every holder |
| Property.Change32CorrectedRoundTrip | src/x11/property.rs:318-340 | corrected, replacing a property with 32-bit values and reading it completely gives their 4-byte layout back as format 32, one item per value, for windows and devices |
| Property.ReplaceStores | src/x11/property.rs:193-197 | Replace mode stores the request's type, format and data |
| Property.AppendExtends | src/x11/property.rs:193-197 | Append mode concatenates the new data after the stored value and leaves every other property unchanged |
| Property.ChangeKeepsWellSized | src/x11/property.rs:235-248 | every change keeps each stored value a whole number of elements |
| Input.FromId | src/x11/input.rs:20-22 | the device carries the given id and display |
| Input.All | src/x11/input.rs:29-34 | the all-devices pseudo-device has id 0 (XIAllDevices) |
| Input.AllMaster | src/x11/input.rs:41-46 | the all-master-devices pseudo-device has id 1 (XIAllMasterDevices), so it differs from the all-devices one |
| Input.FromIdId | src/x11/input.rs:20-22 | `id` returns the id the device was built from, and two devices are equal exactly when their ids are |
| Input.AsHolder | src/x11/input.rs:54-119 | a device's properties are addressed by its display and device id |
| Window.New | src/x11/window.rs:643 | the window keeps the handle, display and ownership it is built with |
| Window.Drop | src/x11/window.rs:863-875 | a foreign window releases nothing; an owned window is destroyed; a composite overlay is released, each with one call |
| Window.ForeignClone | src/x11/window.rs:789-792 | the clone equals the original and is foreign |
| Window.HashInput | src/x11/window.rs:895-899 | the hash covers the window handle and then the display handle |
| Window.SameIsEquivalence | src/x11/window.rs:887-899 | window equality is reflexive, symmetric and transitive, and holds exactly when the hash inputs are equal |
| Window.ForeignCloneReleasesNothing | src/x11/window.rs:789-792 | dropping a foreign clone releases nothing, and the clone hashes like the original |
| Window.AsHolder | src/x11/window.rs:795-861 | a window's properties are addressed by its display and window handle |
| Window.Bit | src/x11/window.rs:156-229 | every attribute has one of the 15 value-mask bit positions |
| Window.Lookup | src/x11/window.rs:37-53 | the attribute found at a bit position belongs to that position; positions 15 and up hold nothing |
| Window.NewAttributes | src/x11/window.rs:56-59 | a new attribute set holds nothing |
| Window.Set | src/x11/window.rs:62-149 | a setter stores its attribute and leaves every other attribute unchanged |
| Window.LookupDetermines | src/x11/window.rs:37-53 | two attribute sets holding the same attributes are equal |
| Window.SetOverwritesAndCommutes | src/x11/window.rs:62-149 | setting the same attribute twice keeps the last value; setters of different attributes commute |
| Window.CWIsBit | src/x11/window.rs:156-229 | each CW mask constant is the single bit at its position, inside the 15 attribute bits |
| Window.OrShift | src/x11/window.rs:153-228 | or-ing one bit into a mask changes a bit test only for that bit |
| Window.OrCW | src/x11/window.rs:153-228 | adding the constant of attribute k to the mask adds the bit of k and no other attribute bit |
| Window.EmptyMask | src/x11/window.rs:153 | a mask within the attribute bits that carries no attribute constant is 0 |
| Window.OrStaysWithin | src/x11/window.rs:153-228 | or-ing attribute constants into a mask keeps it within the 15 attribute bits |
| Window.Store | src/x11/window.rs:156-229 | storing an attribute writes its native field and no other |
| Window.IntoNative | src/x11/window.rs:152-232 | a mask bit is set exactly when its attribute is; the mask uses only the 15 CW bits; an empty set gives mask 0 and a zeroed record; each set attribute's native value is in its field and every unset field is zero |
| Window.NativeDetermines | src/x11/window.rs:154 | two native records with the same fields are equal |
| Window.CreateSimpleChildWindow | src/x11/window.rs:629-645 | the new window is owned by the parent's display, the call carries the parent and geometry unchanged, and dropping it destroys it |
| Window.CreateChildWindow | src/x11/window.rs:660-692 | the new window is owned; the call carries the parent, the position, size and border width as given, the class's native value, the visual, the depth, and the value mask and record of the attribute translation |
| Window.QueryTree | src/x11/window.rs:695-730 | root and parent are foreign windows of this display; children are listed, foreign and in order unless the count is 0 or the list is null; the list is freed exactly when it is used |
| Window.QueryTreeReleasesNothing | src/x11/window.rs:712-727 | dropping any window of a tree releases nothing |
| Colormap.StateFromNative | src/x11/colormap.rs:29-35 | native state 1 is Installed and 0 is Uninstalled |
| Colormap.StateToNative | src/x11/colormap.rs:15-21 | every state's discriminant is a valid native state |
| Colormap.StateRoundTrip | src/x11/colormap.rs:15-35 | decoding a state's discriminant gives the state back, and a valid native state is its decoding's discriminant |
| Colormap.New | src/x11/colormap.rs:67-77 | the colormap keeps the handle, display and ownership it is built with |
| Colormap.Drop | src/x11/colormap.rs:85-91 | only an owned colormap is freed, with one XFreeColormap of its display and handle |
| Cursor.New | src/x11/cursor.rs:20-30 | the cursor keeps its handle and display |
| Cursor.Rgba | src/x11/cursor.rs:80-86 | one pixel becomes four bytes |
| Cursor.RgbaChannels | src/x11/cursor.rs:80-86 | the bytes are red, green, blue and alpha taken from bits 16, 8, 0 and 24, and bits above 32 are ignored |
| Cursor.RgbaAll | src/x11/cursor.rs:79-87 | n pixels become 4n bytes |
| Cursor.RgbaAllAt | src/x11/cursor.rs:79-87 | bytes 4i..4i+4 of the output are pixel i's RGBA |
| Cursor.RgbaData | src/x11/cursor.rs:73-91 | panics exactly when width * height overflows u16; otherwise four bytes per pixel, pixel i's RGBA at 4i |
| Font.Drop | src/x11/font.rs:232-238 | only an owned font is freed, with one XFreeFont |
| Font.LoadQueryFont | src/x11/display.rs:236-245 | for a name without NUL: None exactly when the loader returns null; otherwise an owned font of the loaded handle |
| Font.DefaultFontName | src/x11/font.rs:148-150 | the "font" resource wins; "Font" is consulted only when "font" is unset; a name from XGetDefault holds no NUL |
| Font.TryFonts | src/x11/font.rs:157-164 | names without NUL are tried in order and the names tried form a prefix of the list; nothing is found exactly when every name fails, and then every name was tried; the first name that loads is the last one tried |
| Font.FindDefault | src/x11/font.rs:142-165 | the candidates are the resource name, if any, then 9x15, 8x13 and fixed; the names tried are a prefix of them; nothing is found exactly when every candidate fails; otherwise the last name tried is the first that loads and gives an owned font |
| Font.ConcatFailing | src/x11/font.rs:152-162 | a failing prefix changes neither which name wins nor whether any wins |
| Font.DefaultWins | src/x11/font.rs:152-155 | a loadable resource font is returned after one attempt |
| Font.FallbackOrder | src/x11/font.rs:133 | with no resource, 9x15 is preferred to 8x13 and 8x13 to fixed |
| Font.FoundFontIsFreed | src/x11/font.rs:232-238 | a font found this way is owned, and dropping it frees it |
| Font.CharAccessors | src/x11/font.rs:40-72 | each accessor returns its field of the wrapped struct, and two chars whose accessors all agree are equal |
| Display.FromPtr | src/x11/display.rs:75-105 | the display keeps its handle, ownership, XFixes event base and XInput2 opcode |
| Display.Open | src/x11/display.rs:45-63 | fails exactly when XOpenDisplay returns null, naming the display or "<unknown>"; otherwise an owned display |
| Display.Drop | src/x11/display.rs:467-473 | only an owned display is closed, with one XCloseDisplay |
| Display.OpenedIsClosed | src/x11/display.rs:45-63 | a display that was opened successfully is closed when dropped |
| Display.GetAtom | src/x11/display.rs:199-208 | looks up with only-if-exists set; None exactly when the server answers None |
| Display.GetOrCreateAtom | src/x11/display.rs:219-225 | looks up with only-if-exists clear; the debug assertion fails exactly when the server answers None |
| Display.IndexOf | src/x11/display.rs:199-225 | the position of the first occurrence of an interned name |
| Display.Intern | src/x11/display.rs:199-225 | InternAtom against the server's table: None exactly when the name is unknown and only an existing atom is wanted; otherwise an atom naming the name; the table only grows, by at most that name, stays unchanged for a known name and keeps names distinct |
| Display.TableIsConsistent | src/x11/display.rs:199-225 | against a server table, creating an atom that exists gives the atom a lookup finds |
| Display.AtomLookups | src/x11/display.rs:199-225 | against a server table, `get_atom` finds exactly the names already interned, `get_or_create_atom` never fails its assertion, and both give the same atom for an existing name |
| Display.CreatedIsFound | src/x11/display.rs:199-225 | an atom `get_or_create_atom` creates is the atom `get_atom` finds in the table after the request |
| Display.DistinctNamesDistinctAtoms | src/x11/display.rs:199-208 | in a table that interns each name once, two different interned names give different atoms |
| Display.PadBits | src/x11/display.rs:318 | a bitmap pad is 8, 16 or 32 bits |
| Display.CheckedU32 | src/x11/display.rs:315-320 | u32 arithmetic with debug overflow checks: succeeds exactly when the value fits |
| Display.ExpectedBytes | src/x11/display.rs:314-322 | the expected size is height * bytes_per_line + offset, or height * width * pad/8 + offset, and it panics exactly when an intermediate product or sum overflows u32 |
| Display.LineBytes | src/x11/display.rs:315 | height * bytes_per_line + offset, panicking exactly when the product or the sum overflows |
| Display.PixelBytes | src/x11/display.rs:320 | height * width * unit + offset, panicking exactly when a product or the sum overflows |
| Display.CreateImage | src/x11/display.rs:302-343 | an image is created exactly when the expected size equals the data length as u32; it carries the display, visual, depth, format, width, height, data and pad, and the offset and bytes_per_line (0 when absent) cast to C int |
| Display.CreateImageAcceptsExactSize | src/x11/display.rs:314-322 | with no overflow, an image is created exactly when the data length is the expected size |
| Display.WarpPointer | src/x11/display.rs:360-391 | a source rectangle without a source window panics; otherwise a missing window becomes 0 and a missing rectangle becomes zeros |
| Display.FakeMotionEvent | src/x11/display.rs:424-441 | relative motion uses the relative call; the screen is the number cast to i32, or -1 when no number is given |
| Display.FakeMotionScreen | src/x11/display.rs:432 | a screen number below 2^31 is passed unchanged and never as -1 |
| Screen.RootWindow | src/x11/screen.rs:109-117 | the root window is a foreign window of the screen's display |
| Screen.CompositeWindow | src/x11/screen.rs:123-135 | the overlay window is of the screen's display and owned as a composite overlay |
| Screen.CreateColormap | src/x11/screen.rs:177-192 | the colormap is owned, and the call names the root window, the visual and the allocation's native value |
| Screen.CreateSimpleWindow | src/x11/screen.rs:206-225 | an owned child of the root window, while the root itself stays foreign |
| Screen.FirstMonitorName | src/x11/screen.rs:329-335 | the first monitor-name descriptor, or None when there is none |
| Screen.EdidReadFor | src/x11/screen.rs:288-324 | EDID is read only when the atom exists and the monitor has outputs: from the first output, 100 units at offset 0, no delete, any type |
| Screen.MonitorRecord | src/x11/screen.rs:326-354 | every geometry field is copied, flags are non-zero tests; the serial is present exactly when EDID was read and parsed; the name needs the serial |
| Screen.ReadsFor | src/x11/screen.rs:285-324 | the EDID reads of a monitor list, in order: none without the atom, one per monitor when all have outputs, each of 100 units at offset 0 of the EDID atom |
| Screen.RecordsFor | src/x11/screen.rs:285-354 | one record per monitor |
| Screen.RecordsForElements | src/x11/screen.rs:285-354 | record k is the record built from monitor k |
| Screen.MonitorsStep | src/x11/screen.rs:285-354 | one more monitor appends its record and, when it is read, its EDID read |
| Screen.MonitorRecords | src/x11/screen.rs:285-358 | the loop over the monitors builds exactly their records and issues exactly their EDID reads |
| Screen.GetMonitors | src/x11/screen.rs:266-362 | no monitors and no reads when the list is null; otherwise one record per monitor, in order, each built from its monitor with the EDID atom looked up once; the EDID reads are exactly those of the monitor list |
| EventEnums.VisibilityFromNative | src/x11/event.rs:26-33 | decoding a valid visibility state gives a variant whose discriminant is that state |
| EventEnums.VisibilityToNative | src/x11/event.rs:9-18 | every variant's discriminant is a valid visibility state |
| EventEnums.MappingFromNative | src/x11/event.rs:50-57 | decoding a valid mapping request gives the variant with that discriminant |
| EventEnums.MappingToNative | src/x11/event.rs:38-42 | every variant's discriminant is a valid mapping request |
| EventEnums.ConfigureDetailFromNative | src/x11/event.rs:83-92 | decoding a valid stacking detail gives the variant with that discriminant |
| EventEnums.ConfigureDetailToNative | src/x11/event.rs:69-75 | every variant's discriminant is a valid stacking detail |
| EventEnums.PlaceFromNative | src/x11/event.rs:111-117 | decoding a valid circulate place gives the variant with that discriminant |
| EventEnums.PlaceToNative | src/x11/event.rs:97-103 | every variant's discriminant is a valid circulate place |
| EventEnums.PropertyStateFromNative | src/x11/event.rs:136-142 | decoding a valid property state gives the variant with that discriminant |
| EventEnums.PropertyStateToNative | src/x11/event.rs:122-128 | every variant's discriminant is a valid property state |
| EventEnums.NotifyModeFromNative | src/x11/event.rs:208-215 | decoding a valid notify mode gives the variant with that discriminant |
| EventEnums.NotifyModeToNative | src/x11/event.rs:191-200 | every variant's discriminant is a valid notify mode |
| EventEnums.NotifyDetailFromNative | src/x11/event.rs:252-264 | decoding a valid notify detail gives the variant with that discriminant |
| EventEnums.NotifyDetailToNative | src/x11/event.rs:220-244 | every variant's discriminant is a valid notify detail |
| EventEnums.CursorSubtypeFromNative | src/x11/event.rs:2369-2374 | decoding the cursor subtype gives the variant with that discriminant |
| EventEnums.CursorSubtypeToNative | src/x11/event.rs:2359-2361 | the only variant's discriminant is a valid subtype |
| EventEnums.ValuatorModeFromNative | src/x11/event.rs:2545-2551 | decoding a valid valuator mode gives the variant with that discriminant |
| EventEnums.ValuatorModeToNative | src/x11/event.rs:2530-2533 | every variant's discriminant is a valid valuator mode |
| EventEnums.ScrollTypeFromNative | src/x11/event.rs:2571-2577 | decoding a valid scroll type gives the variant with that discriminant |
| EventEnums.ScrollTypeToNative | src/x11/event.rs:2556-2559 | every variant's discriminant is a valid scroll type |
| EventEnums.TouchModeFromNative | src/x11/event.rs:2608-2614 | decoding a valid touch mode gives the variant with that discriminant |
| EventEnums.TouchModeToNative | src/x11/event.rs:2593-2596 | every variant's discriminant is a valid touch mode |
| EventEnums.ReasonFromNative | src/x11/event.rs:2798-2804 | decoding a valid device change reason gives the variant with that discriminant |
| EventEnums.ReasonToNative | src/x11/event.rs:2783-2786 | every variant's discriminant is a valid device change reason |
| EventEnums.FocusModeFromNative | src/x11/event.rs:3422-3429 | decoding a valid XI focus mode gives the variant with that discriminant |
| EventEnums.FocusModeToNative | src/x11/event.rs:3406-3410 | every variant's discriminant is a valid XI focus mode |
| EventEnums.PropertyChangeFromNative | src/x11/event.rs:3630-3637 | decoding a valid XI property change gives the variant with that discriminant |
| EventEnums.PropertyChangeToNative | src/x11/event.rs:3614-3618 | every variant's discriminant is a valid XI property change |
| EventEnums.DecodersInvertDiscriminants | src/x11/event.rs:20-264 | each of the thirteen decoders gives back the variant whose discriminant it decodes |
| CoreEvents.OptionalWindow | src/x11/event.rs:1685-1693 | window 0 is None; any other handle is a foreign window of the display |
| CoreEvents.OptionalAtom | src/x11/event.rs:2249-2253 | atom None is None; any other id is an atom of the display |
| CoreEvents.OptionalIdsRoundTrip | src/x11/event.rs:1685-1693 | mapping an optional window or atom back to its id gives the original id, and back again gives the optional value |
| CoreEvents.ForeignWindow | src/x11/event.rs:1031-1044 | a window named in an event is foreign, so dropping it releases nothing |
| CoreEvents.NewKeymap | src/x11/event.rs:1531-1539 | the key vector has 32 entries, each a byte value in 0..255 |
| CoreEvents.KeymapKeepsBytes | src/x11/event.rs:1531-1539 | each entry, read back as a signed byte, is the native key byte |
| CoreEvents.NewMotion | src/x11/event.rs:1031-1044 | root and subwindow are foreign windows of the display; time, coordinates and state are kept; hint exactly when detail is NotifyHint; same-screen is a non-zero test |
| CoreEvents.NewButton | src/x11/event.rs:1125-1138 | root and subwindow are foreign windows; time, coordinates and state are kept; the button is the native detail; same-screen is a non-zero test |
| CoreEvents.NewKey | src/x11/event.rs:1219-1232 | root and subwindow are foreign windows; time, coordinates and state are kept; the keycode is the native detail; same-screen is a non-zero test |
| CoreEvents.NewColormap | src/x11/event.rs:1306-1312 | the colormap is a foreign colormap of the handle; new is a non-zero test; the state's discriminant is the native state |
| CoreEvents.NewCrossing | src/x11/event.rs:1356-1370 | root and subwindow are foreign; time, coordinates and state are kept; the detail's discriminant is the native detail; same-screen and focus are non-zero tests |
| CoreEvents.NewExpose | src/x11/event.rs:1446-1454 | the exposed rectangle and the count are kept |
| CoreEvents.NewFocusChange | src/x11/event.rs:1502-1507 | mode and detail have the native values as discriminants |
| CoreEvents.NewProperty | src/x11/event.rs:1565-1571 | the atom is the native atom of the display, the time is kept, the state's discriminant is the native state |
| CoreEvents.NewResizeRequest | src/x11/event.rs:1601-1606 | the requested width and height are kept |
| CoreEvents.NewCirculate | src/x11/event.rs:1636-1641 | the window is foreign; the place's discriminant is the native place |
| CoreEvents.NewDestroyWindow | src/x11/event.rs:1757-1761 | the window is a foreign window of the native handle |
| CoreEvents.NewGravity | src/x11/event.rs:1787-1793 | the window is foreign and its new position is kept |
| CoreEvents.NewMap | src/x11/event.rs:1828-1833 | the window is foreign; override-redirect is a non-zero test |
| CoreEvents.NewReparent | src/x11/event.rs:1866-1874 | window and new parent are foreign; the position is kept; override-redirect is a non-zero test |
| CoreEvents.NewUnmap | src/x11/event.rs:1919-1924 | the window is foreign; from-configure is a non-zero test |
| CoreEvents.NewCirculateRequest | src/x11/event.rs:1954-1959 | the window is foreign; the place's discriminant is the native place |
| CoreEvents.NewConfigureRequest | src/x11/event.rs:1996-2008 | window and sibling are foreign; geometry and value mask are kept; the detail's discriminant is the native detail |
| CoreEvents.NewMapRequest | src/x11/event.rs:2074-2078 | the window is a foreign window of the native handle |
| CoreEvents.NewClientMessage | src/x11/event.rs:2103-2139 | the message type is the native atom of the display; the data is the format-selected view of the native data, whose format is the native format |
| CoreEvents.NewMapping | src/x11/event.rs:2167-2173 | the request's discriminant is the native request; first keycode and count are kept |
| CoreEvents.NewSelectionClear | src/x11/event.rs:2208-2213 | the selection is the native atom of the display; the time is kept |
| CoreEvents.NewSelectionRequest | src/x11/event.rs:2299-2307 | the requestor is foreign; selection, target and property are the native atoms; the time is kept |
| CoreEvents.NewVisibility | src/x11/event.rs:2346-2350 | the state's discriminant is the native visibility state |
| CoreEvents.NewDisplayCursor | src/x11/event.rs:2396-2403 | the subtype's discriminant is the native subtype; serial and timestamp are kept; the cursor name is the native atom |
| CoreEvents.NewConfigure | src/x11/event.rs:1677-1696 | the window is foreign; the window above is None exactly when the native value is 0, and otherwise a foreign window of that handle; geometry is kept; override-redirect is a non-zero test |
| CoreEvents.ClientDataFromNative | src/x11/event.rs:2103-2139 | formats 8, 16 and 32 give 20 bytes, 10 shorts or 5 longs, each the native value cast to its width |
| CoreEvents.ClientFormat | src/x11/event.rs:2104-2133 | every client data variant has a valid format |
| CoreEvents.ClientDataRoundTrip | src/x11/event.rs:2103-2139 | writing client data to its native form and decoding it gives the same data, with the variant's format |
| CoreEvents.NewSelection | src/x11/event.rs:2245-2256 | selection and target are the native atoms; the property is None exactly when the native atom is None, and otherwise keeps its id; the time is kept |
| XInputEvents.BitOfIsShift | src/x11/event.rs:2991-3005 | the mask bit for position j is 1 shifted left by j |
| XInputEvents.MaskBits | src/x11/event.rs:2991-3005 | the mask has one entry per bit, true exactly when `XIMaskIsSet` holds for it |
| XInputEvents.SetBitsFromSound | src/x11/event.rs:2991-3005 | every position reported by the scan is in range and set |
| XInputEvents.SetBitsFromComplete | src/x11/event.rs:2991-3005 | every set position in range is reported |
| XInputEvents.SetBitsFromAscending | src/x11/event.rs:2991-3005 | positions are reported in ascending order |
| XInputEvents.SetBitsExact | src/x11/event.rs:2991-3005 | a position is reported exactly when it is inside the mask and set, in ascending order |
| XInputEvents.PairFrom | src/x11/event.rs:2991-3005 | one value is consumed per set bit, so the values kept are the leading ones of the native array |
| XInputEvents.ValuatorValues | src/x11/event.rs:2991-3005 | the k-th kept value is the native array's k-th value, and there is one per set bit |
| XInputEvents.PairLockstepFrom | src/x11/event.rs:3131-3150 | the values and raw values advance together, each like a single-array scan |
| XInputEvents.LockstepAligned | src/x11/event.rs:3131-3150 | values and raw values have equal length, one per set bit, and the k-th of each is the native array's k-th |
| XInputEvents.NewClassInfo | src/x11/event.rs:2663-2731 | the class keeps its native type and source device; key codes and button state mask are kept; button labels and valuator label are atoms of the display; valuator number, bounds, value and resolution and scroll number, increment and flags are kept; valuator mode, scroll type and touch mode are the native ones; the touch count is the native count cast to u32 |
| XInputEvents.NewModifierState | src/x11/event.rs:2927-2934 | each of base, latched, locked and effective is the native value cast to u32 |
| XInputEvents.NewHierarchyInfo | src/x11/event.rs:2471-2479 | the device and attachment are the native ids; usage and flags are kept; enabled is a non-zero test |
| XInputEvents.NewTouchOwnership | src/x11/event.rs:3227-3238 | device and source are the native ids; root, event and child are foreign; time, touch id and flags are kept |
| XInputEvents.NewBarrier | src/x11/event.rs:3320-3336 | device and source are the native ids; event and root are foreign; time, position, deltas, barrier and event id are kept |
| XInputEvents.NewFocus | src/x11/event.rs:3502-3524 | device and source are the native ids; root, event and child are foreign; detail and mode have the native discriminants; focus and same-screen are non-zero tests; positions and buttons are kept; modifiers and group are converted as modifier states |
| XInputEvents.NewDeviceProperty | src/x11/event.rs:3659-3666 | time and device are kept; the property is the native atom; the change's discriminant is the native value |
| XInputEvents.NewHierarchy | src/x11/event.rs:2752-2763 | time and flags are kept; one info record per native entry, in order, each the conversion of that entry |
| XInputEvents.NewDeviceChanged | src/x11/event.rs:2827-2840 | time is kept; device and source are the native ids on the display; the reason has the native discriminant; one class per native class, in order, each the conversion of that class |
| XInputEvents.NewDevice | src/x11/event.rs:2988-3025 | time and detail are kept; device and source are the native ids; root, event and child are foreign; positions, flags and buttons are kept; modifiers and group are converted as modifier states; the valuator mask is kept, and there is one value per set bit, equal to the leading native values |
| XInputEvents.NewRaw | src/x11/event.rs:3130-3161 | time, detail and flags are kept; device and source are the native ids; the mask is kept, and values and raw values both hold one entry per set bit, equal to the leading native entries |
| Event.DecodeInputEvent | src/x11/event.rs:699-718 | an input, crossing, focus, keymap or expose code decodes to its core variant, whose native type is the code, with every window foreign |
| Event.DecodeWindowEvent | src/x11/event.rs:725-750 | a window structure code decodes to its core variant, whose native type is the code, with every window foreign |
| Event.DecodeClientEvent | src/x11/event.rs:719-764 | a property, selection, colormap, client message or mapping code decodes to its core variant, whose native type is the code, with every window and colormap foreign |
| Event.DecodeCore | src/x11/event.rs:699-767 | every core code with an arm decodes to a core variant of that native type, holding only foreign handles |
| Event.InputPayloads | src/x11/event.rs:698-767 | each input, crossing, focus, keymap and expose code decodes to its variant holding the constructor applied to the matching native view |
| Event.WindowPayloads | src/x11/event.rs:698-767 | each window structure code decodes to its variant holding the constructor applied to the matching native view |
| Event.ClientPayloads | src/x11/event.rs:698-767 | each property, selection, colormap, client message and mapping code decodes to its variant holding the constructor applied to the matching native view |
| Event.CursorPayload | src/x11/event.rs:769-774 | a cursor change decodes the XFixes cursor view of the event |
| Event.DeviceVariant | src/x11/event.rs:821-883 | a device event code selects the variant of that XI type, naming the root, event and child windows |
| Event.RawVariant | src/x11/event.rs:891-946 | a raw event code selects the variant of that XI type, naming no window |
| Event.FocusVariant | src/x11/event.rs:961-988 | an enter, leave or focus code selects the variant of that XI type, naming the root, event and child windows |
| Event.DecodeXIPayload | src/x11/event.rs:813-994 | every known XI type converts its cookie data to the variant of that type, holding only foreign handles |
| Event.DecodeXIOther | src/x11/event.rs:814-994 | the remaining known XI types convert to the variant of their type |
| Event.BarrierVariant | src/x11/event.rs:947-960 | a barrier code selects the variant of that XI type, naming the event and root windows |
| Event.DecodeXIDeviceState | src/x11/event.rs:814-890 | device changed, hierarchy and property codes select the variant of their type, naming no window |
| Event.DecodeXInput2 | src/x11/event.rs:809-1003 | the cookie data is fetched once, converted only for a known type, and freed once; Unknown exactly for an unknown type, carrying the native event |
| Event.XInput2DecodesPayload | src/x11/event.rs:809-1003 | a known XI type on the XInput2 opcode decodes to the conversion of its cookie data |
| Event.XInput2DevicePayload | src/x11/event.rs:821-883 | a device event type converts the device view of the cookie data |
| Event.XInput2RawPayload | src/x11/event.rs:891-946 | a raw event type converts the raw view of the cookie data |
| Event.XInput2FocusPayload | src/x11/event.rs:961-988 | an enter, leave or focus type converts the enter view of the cookie data |
| Event.XInput2OtherPayloads | src/x11/event.rs:814-994 | touch ownership, barrier, device changed, hierarchy and property types convert the matching view of the cookie data |
| Event.DecodeGeneric | src/x11/event.rs:789-797 | another extension's event is Unknown with no call; XInput2's is decoded as above; the native type stays GenericEvent |
| Event.Decode | src/x11/event.rs:697-777 | the variant's native type is the event type; Unknown carries the native event; every fetch is freed once; every window and colormap is foreign |
| Event.CoreCodesWin | src/x11/event.rs:698-767 | a core code decodes to its core variant without any cookie call, even when it equals the XFixes cursor code |
| Event.CursorNotifyAfterCoreArms | src/x11/event.rs:769-774 | the cursor variant arises exactly for the XFixes cursor code when that code is neither a core code nor GenericEvent |
| Event.UnknownExactly | src/x11/event.rs:775 | Unknown arises exactly for codes without an arm, another extension's generic events and unknown XI types |
| Event.OtherExtensionUntouched | src/x11/event.rs:792-796 | another extension's generic event is Unknown, unchanged, and no call is made |
| Event.XInput2FetchesAndFreesOnce | src/x11/event.rs:812-1000 | an XInput2 event issues one fetch and one free of its cookie, the fetch first |
| Event.DecodedReleasesNothing | src/x11/event.rs:697-777 | dropping any window or colormap found in a decoded event releases nothing |
| Event.NewEvent | src/x11/event.rs:286-303 | the event keeps the serial, the send-event flag as a non-zero test and a foreign window, and the data of the decoder |

## Left out

- atom.rs, pixmap, visual, gc, region and image are not part of this model. An atom is an id plus its display; a pixmap, visual or image is its handle.
- XInternAtom is a parameter of the lookups. Display.Intern is a reference model of the server's atom table, and the lemmas that pass it as that parameter say what a real server gives. The atoms the protocol predefines are not in that table.
- Native.LittleEndian: the contract states only the length; the contents are stated by Native.LittleEndianRoundTrip and Native.FromLittleEndianRoundTrip.
- Native.Layout: the contract states only the length; the contents are stated by Native.LayoutElement and Native.LayoutDecodes.
- Native.WidenToLongs: the contract states only the length; the contents are stated by Native.WidenElement and Native.NarrowWiden.
- A C `long` is 8 bytes (Native.LONG_BYTES) and is sign-extended from the 32-bit element, as on the LP64 platforms Xlib is built for. A 4-byte `long` platform is not modelled.
- Property.WireRequest: for `long` elements the data is stated only through Property.Change32PastSliceExample and Property.Change32CorrectedWire.
- Property.Change32RoundTrip: holds for devices only. For windows the code as written reads past the slice, see Findings; Property.Change32CorrectedRoundTrip holds for both.
- Screen.RecordsFor: the contract states only the length; each record is stated by Screen.RecordsForElements.
- `text_extents`, `XFontDirection`, `id`, `default_visual`, `match_visual`, `create_window` of a screen, `reparent`, the shape, region and other window operations not named above are left out. Each is a single foreign call whose result the wrapper only copies.
- `XDisplay::next_event`, `pending_events`, `queued_events`, `sync`, `flush`, `keycodes`, `fake_key_event`, `fake_button_event` and the mio registration are left out: they are thin foreign calls or I/O.
- The EDID parser and the bytes XRRGetOutputProperty returns are parameters. `XFree` of the EDID buffer and of the monitor list is not traced.
- Cursor: the drop of `XCursorImage`, an unconditional `XFree` of the image (src/x11/cursor.rs:94-98), is not traced.
- Floating-point fields of XInput2 events are kept as their 64-bit patterns and only copied.
- Event field accessors are left out. They return a field, or a foreign window built from one.
- Cursor.RgbaData: assumes the pixel buffer holds at least width * height pixels when the product does not overflow. The source reads raw memory without a length.
- Display.Open: a name containing a NUL byte is excluded by precondition; the source panics in `CString::new`. The same holds for Display.GetAtom, Display.GetOrCreateAtom, Font.LoadQueryFont, Font.TryFonts and Font.FindDefault. A resource name from XGetDefault is a C string, so Font.DefaultFontName states that it holds no NUL. Font.DefaultFontName and Font.FindDefault require the program name to hold no NUL, and Font.FindDefault requires XGetDefault to return C strings, which is how the native call behaves.
- Display.GetOrCreateAtom: models a debug build, where `debug_assert!` fails on atom None. A release build returns atom None.
- Display.CreateImage: models a debug build, where u32 overflow in the size computation panics. A release build wraps around.
- Event.Decode: the cookie data pointer that XGetEventData fills in is abstract. An Unknown XInput2 event carries the event as received, not the pointer that was freed.
- Event.Decode: a precondition excludes native enum values that the source rejects with `unreachable!`, and XInput2 cookie data that does not fit its type. The source panics or reads undefined memory there.
- The XI focus detail reuses the core notify detail type, because XI2.h gives the same values 0..7 to both.
- Concurrency and the lifetime parameters that tie handles to their display are not modelled; a handle stores its display's handle instead.

## Findings

| source | as written | input that shows it | evidently intended | confidence | as-written member | corrected member |
|---|---|---|---|---|---|---|
| src/x11/property.rs:362 | the second read asks for `remaining / 4` 32-bit units, rounding down | an 8-bit property holding the 3 bytes [1, 2, 3]: the probe reports 3 bytes remaining, the second read asks for 0 units and returns no items, and with delete set the property is not deleted | ask for `(remaining + 3) / 4` units, so that the whole value is read, and deleted when asked | not executed | Property.CompletelyTruncatesExample | Property.CompletelyCorrectedReadsAll |
| src/x11/property.rs:318-340 | `change_property32` passes the 4-byte memory of an `i32` slice to XChangeProperty, which reads format-32 data of a window as one C `long` per element | a window property set to [1, 2]: the call reads 16 bytes from an 8-byte slice, sends element 1 and, as the second element, the 4 bytes that follow the slice in memory | pass the values as `long`s for a window, so that the call reads exactly the buffer and the server receives [1, 2] | not executed | Property.Change32PastSliceExample | Property.Change32CorrectedRoundTrip |
| src/x11/property.rs:112-119 | `byte_size` counts 4 bytes per format-32 item, but XGetWindowProperty hands over a window's format-32 items as 8-byte `long`s | a window property holding the 32-bit items 1 and 2: the read reports two items, and `as_slice` gives the 8 bytes of the long 1, so the item 2 is lost | narrow the `long`s back to 32-bit items before wrapping them, so that the slice is the stored value | not executed | Property.Get32LongsExample | Property.CompletelyCorrectedReadsAll |
