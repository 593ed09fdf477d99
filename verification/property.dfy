/**
 * Property data and the generic property read/write capability shared by
 * windows and input devices: the 8/16/32-bit element formats, the byte
 * sizes they imply, the reply wrapping both holders perform, and the
 * two-phase "read completely" convenience.
 *
 * The foreign read call (XGetWindowProperty / XIGetProperty) is an oracle
 * `Server` from the request the wrapper issues to the reply it gets back.
 * `ServerGetProperty` is a reference model of that reply as section 9 of
 * the X Window System Protocol (GetProperty) defines it; it is used only
 * to state what a read returns, never by the wrapper model itself.
 *
 * Between the two sits the native library. XGetWindowProperty and
 * XChangeProperty exchange 32-bit elements as C `long`s, 8 bytes each on
 * LP64 platforms, while XIGetProperty and XIChangeProperty exchange the
 * protocol's 4-byte elements; `ClientReply` and `WireRequest` model that
 * conversion.
 */
module Property {
  import opened Wrappers
  import opened Native
  import Atom

  /** `XPropertyDataFormat`: the width of one property element. */
  datatype Format = Bit8 | Bit16 | Bit32

  /** The format for a native format number; only 8, 16 and 32 are formats. */
  function FromNative(format: int): (r: Option<Format>)
    ensures r.Some? <==> format == 8 || format == 16 || format == 32
  {
    match format
    case 8 => Some(Bit8)
    case 16 => Some(Bit16)
    case 32 => Some(Bit32)
    case _ => None
  }

  /** The native format number of a format. */
  function ToNative(f: Format): (r: int)
    ensures r == 8 || r == 16 || r == 32
  {
    match f
    case Bit8 => 8
    case Bit16 => 16
    case Bit32 => 32
  }

  /** Decoding an encoded format gives the format back. */
  lemma FromNativeToNative(f: Format)
    ensures FromNative(ToNative(f)) == Some(f)
  {
  }

  /** Encoding a decoded native number gives the number back. */
  lemma ToNativeFromNative(format: int)
    requires FromNative(format).Some?
    ensures ToNative(FromNative(format).value) == format
  {
  }

  /** The size in bytes of one element of the format. */
  function ByteCount(f: Format): (r: nat)
    ensures r == 1 || r == 2 || r == 4
    ensures r * 8 == ToNative(f)
  {
    match f
    case Bit8 => 1
    case Bit16 => 2
    case Bit32 => 4
  }

  /** The size in bytes of `length` elements of the format. */
  function ByteCountArray(f: Format, length: nat): (r: nat)
    ensures r * 8 == ToNative(f) * length
  {
    ByteCount(f) * length
  }

  /**
   * `XPropertyData`: the reply's format, actual type and element count,
   * and the buffer the server library returned (it owns the buffer and
   * frees it with XFree on drop).
   */
  datatype PropertyData = PropertyData(format: Format, actualType: Atom.Atom, itemCount: nat, buffer: seq<bv8>)

  /** `byte_size`: the number of data bytes the property holds. */
  function ByteSize(d: PropertyData): (r: nat)
    ensures r * 8 == ToNative(d.format) * d.itemCount
  {
    ByteCountArray(d.format, d.itemCount)
  }

  /**
   * `as_slice`: the data bytes. The slice is built over the returned
   * buffer, which therefore must hold at least `ByteSize(d)` bytes.
   */
  function AsSlice(d: PropertyData): (r: seq<bv8>)
    requires ByteSize(d) <= |d.buffer|
    ensures |r| == ByteSize(d)
    ensures r <= d.buffer
  {
    d.buffer[..ByteSize(d)]
  }

  /**
   * `get_as_ptr` / `get_as_mut_ptr`: reinterpret the data as a value of a
   * type occupying `sizeOfT` bytes. The pointer is the start of the
   * buffer; the call panics when the data is smaller than the type.
   */
  function GetAsPtr(d: PropertyData, sizeOfT: nat): (r: Result<seq<bv8>, Panic>)
    ensures r.Success? <==> sizeOfT <= ByteSize(d)
    ensures r.Success? ==> r.value == d.buffer
  {
    if ByteSize(d) >= sizeOfT then Success(d.buffer)
    else Failure(AssertionFailed("byte_size >= size_of::<T>()"))
  }

  /** `XPropertyChangeMode` with its native values. */
  datatype ChangeMode = Replace | Prepend | Append

  function ChangeModeToNative(m: ChangeMode): int {
    match m
    case Replace => 0
    case Prepend => 1
    case Append => 2
  }

  /** The object a property belongs to: a window, or an input device (XInput2 device properties). */
  datatype Holder = WindowHolder(display: int, window: int) | DeviceHolder(display: int, device: int)

  function HolderDisplay(h: Holder): int {
    match h
    case WindowHolder(d, _) => d
    case DeviceHolder(d, _) => d
  }

  /** The arguments of one native read call; `delete` is already the C int 0 or 1. */
  datatype GetRequest = GetRequest(holder: Holder, property: int, offset: int, length: int, delete: int, reqType: int)

  /** The out-parameters the native read call fills in. */
  datatype NativeReply = NativeReply(actualType: int, actualFormat: int, itemCount: nat, bytesAfter: nat, data: seq<bv8>)

  /** The foreign read call, as an oracle. */
  type Server = GetRequest -> NativeReply

  /**
   * The reply wrapping both `XPropertyHolder` implementations perform:
   * no data unless the reported format is 8, 16 or 32; otherwise the data
   * with the reported type and element count, and the remaining-byte count.
   */
  function WrapReply(reply: NativeReply, display: int): (r: Option<(PropertyData, nat)>)
    ensures r.None? <==> FromNative(reply.actualFormat).None?
    ensures r.Some? ==>
              && ToNative(r.value.0.format) == reply.actualFormat
              && r.value.0.actualType == Atom.Atom(reply.actualType, display)
              && r.value.0.itemCount == reply.itemCount
              && r.value.0.buffer == reply.data
              && r.value.1 == reply.bytesAfter
  {
    match FromNative(reply.actualFormat)
    case None => None
    case Some(format) => Some((PropertyData(format, Atom.Atom(reply.actualType, display), reply.itemCount, reply.data), reply.bytesAfter))
  }

  /**
   * `get_property`: issue one native read with the caller's arguments
   * (the delete flag converted to 0/1) and wrap the reply. Returns the
   * request issued alongside the result.
   */
  function GetProperty(h: Holder, property: Atom.Atom, offset: int, length: int, delete: bool, ty: Atom.Atom, server: Server): (r: (Option<(PropertyData, nat)>, GetRequest))
    ensures r.1 == GetRequest(h, property.id, offset, length, BoolToInt(delete), ty.id)
    ensures r.0 == WrapReply(server(r.1), HolderDisplay(h))
  {
    var req := GetRequest(h, property.id, offset, length, BoolToInt(delete), ty.id);
    (WrapReply(server(req), HolderDisplay(h)), req)
  }

  /**
   * `get_property_completely`: a zero-length probe read, then, unless the
   * probe fails or reports nothing remaining, one more read of
   * `remaining / 4` 32-bit units with the caller's delete flag. Returns
   * the data and the requests issued, in order.
   */
  function GetPropertyCompletely(h: Holder, property: Atom.Atom, delete: bool, ty: Atom.Atom, server: Server): (r: (Option<PropertyData>, seq<GetRequest>))
    ensures 1 <= |r.1| <= 2
    ensures r.1[0] == GetRequest(h, property.id, 0, 0, 0, ty.id)
    ensures var probe := WrapReply(server(r.1[0]), HolderDisplay(h));
            && (probe.None? ==> r == (None, [r.1[0]]))
            && (probe.Some? && probe.value.1 < 1 ==> r == (Some(probe.value.0), [r.1[0]]))
            && (probe.Some? && probe.value.1 >= 1 ==>
                  && |r.1| == 2
                  && r.1[1] == GetRequest(h, property.id, 0, probe.value.1 / 4, BoolToInt(delete), ty.id)
                  && var second := WrapReply(server(r.1[1]), HolderDisplay(h));
                     r.0 == (if second.Some? then Some(second.value.0) else None))
  {
    var (probe, req0) := GetProperty(h, property, 0, 0, false, ty, server);
    match probe
    case None => (None, [req0])
    case Some((data, remaining)) =>
      if remaining < 1 then
        (Some(data), [req0])
      else
        var (second, req1) := GetProperty(h, property, 0, remaining / 4, delete, ty, server);
        match second
        case None => (None, [req0, req1])
        case Some((data', _)) => (Some(data'), [req0, req1])
  }

  /** The arguments of one native change call. */
  datatype ChangeRequest = ChangeRequest(holder: Holder, property: int, propType: int, format: int, mode: int, data: seq<bv8>, elementCount: int)

  /** `change_property_unsafe` of both holders: forward the native format, mode and element count unchanged. */
  function ChangePropertyUnsafe(h: Holder, property: Atom.Atom, ty: Atom.Atom, format: Format, mode: ChangeMode, data: seq<bv8>, elementCount: nat): (r: ChangeRequest)
    ensures r.holder == h && r.property == property.id && r.propType == ty.id
    ensures FromNative(r.format) == Some(format)
    ensures r.mode == ChangeModeToNative(mode)
    ensures r.data == data && r.elementCount == elementCount
  {
    ChangeRequest(h, property.id, ty.id, ToNative(format), ChangeModeToNative(mode), data, elementCount)
  }

  /** `change_property8`: 8-bit elements, one per byte of `data`. */
  function ChangeProperty8(h: Holder, property: Atom.Atom, ty: Atom.Atom, mode: ChangeMode, data: seq<bv8>): (r: ChangeRequest)
    ensures r.format == 8 && r.elementCount == |data|
    ensures r.data == data
    ensures |r.data| == ByteCountArray(Bit8, r.elementCount)
  {
    ChangePropertyUnsafe(h, property, ty, Bit8, mode, data, |data|)
  }

  /** `change_property16`: 16-bit elements, the slice's memory passed as bytes. */
  function ChangeProperty16(h: Holder, property: Atom.Atom, ty: Atom.Atom, mode: ChangeMode, data: seq<int>): (r: ChangeRequest)
    ensures r.format == 16 && r.elementCount == |data|
    ensures r.data == Layout(data, 2)
    ensures |r.data| == ByteCountArray(Bit16, r.elementCount)
  {
    ChangePropertyUnsafe(h, property, ty, Bit16, mode, Layout(data, 2), |data|)
  }

  /** `change_property32`: 32-bit elements, the slice's memory passed as bytes. */
  function ChangeProperty32(h: Holder, property: Atom.Atom, ty: Atom.Atom, mode: ChangeMode, data: seq<int>): (r: ChangeRequest)
    ensures r.format == 32 && r.elementCount == |data|
    ensures r.data == Layout(data, 4)
    ensures |r.data| == ByteCountArray(Bit32, r.elementCount)
  {
    ChangePropertyUnsafe(h, property, ty, Bit32, mode, Layout(data, 4), |data|)
  }

  /** `delete_property` of both holders: one native delete call for the property. */
  datatype DeleteRequest = DeleteRequest(holder: Holder, property: int)

  function DeleteProperty(h: Holder, property: Atom.Atom): (r: DeleteRequest)
    ensures r.holder == h && r.property == property.id
  {
    DeleteRequest(h, property.id)
  }

  // ---------------------------------------------------------------------
  // The native library's element conversion.
  // ---------------------------------------------------------------------

  /**
   * Whether the native calls exchange a holder's elements of a format as C
   * `long`s: the window calls do so for format 32, the XInput2 device
   * calls never do.
   */
  predicate LongElements(h: Holder, format: int) {
    h.WindowHolder? && format == 32
  }

  /** The bytes one element of the format occupies in the buffers of a holder's native calls. */
  function ClientElementBytes(h: Holder, f: Format): (r: nat)
    ensures r >= ByteCount(f)
    ensures r == ByteCount(f) <==> !LongElements(h, ToNative(f))
  {
    if LongElements(h, ToNative(f)) then LONG_BYTES else ByteCount(f)
  }

  /** The reply as the native read call hands it over: `long` elements are widened from the protocol's 32 bits. */
  function ClientReply(h: Holder, reply: NativeReply): (r: NativeReply)
    ensures r.actualType == reply.actualType && r.actualFormat == reply.actualFormat
    ensures r.itemCount == reply.itemCount && r.bytesAfter == reply.bytesAfter
    ensures !LongElements(h, reply.actualFormat) ==> r == reply
    ensures LongElements(h, reply.actualFormat) ==> |r.data| == LONG_BYTES * (|reply.data| / 4)
  {
    if LongElements(h, reply.actualFormat) then reply.(data := WidenToLongs(reply.data)) else reply
  }

  /** A reply converted back to protocol elements: `long` elements are narrowed to 32 bits. */
  function NarrowReply(h: Holder, reply: NativeReply): (r: NativeReply)
    ensures r.actualType == reply.actualType && r.actualFormat == reply.actualFormat
    ensures r.itemCount == reply.itemCount && r.bytesAfter == reply.bytesAfter
    ensures !LongElements(h, reply.actualFormat) ==> r == reply
  {
    if LongElements(h, reply.actualFormat) then reply.(data := NarrowLongs(reply.data)) else reply
  }

  /** Narrowing the reply the native call hands over recovers the protocol reply, whole 32-bit elements and all. */
  lemma NarrowClientReply(h: Holder, reply: NativeReply)
    requires LongElements(h, reply.actualFormat) ==> |reply.data| % 4 == 0
    ensures NarrowReply(h, ClientReply(h, reply)) == reply
  {
    if LongElements(h, reply.actualFormat) {
      NarrowWiden(reply.data);
      assert reply.data[..4 * (|reply.data| / 4)] == reply.data;
    }
  }

  /** The number of bytes the native change call reads through its data pointer. */
  function NativeReadLength(req: ChangeRequest): (r: nat)
    requires FromNative(req.format).Some? && 0 <= req.elementCount
    ensures r >= ByteCountArray(FromNative(req.format).value, req.elementCount)
    ensures LongElements(req.holder, req.format) ==> r == LONG_BYTES * req.elementCount
    ensures !LongElements(req.holder, req.format) ==> r == ByteCountArray(FromNative(req.format).value, req.elementCount)
  {
    ClientElementBytes(req.holder, FromNative(req.format).value) * req.elementCount
  }

  /**
   * The request as it goes over the wire: the native change call reads
   * `NativeReadLength` bytes, those of the passed buffer followed by
   * whatever memory lies `beyond` it, and narrows `long` elements to 32 bits.
   */
  function WireRequest(req: ChangeRequest, beyond: seq<bv8>): (w: ChangeRequest)
    requires FromNative(req.format).Some? && 0 <= req.elementCount
    requires NativeReadLength(req) <= |req.data| + |beyond|
    ensures w == req.(data := w.data)
    ensures |w.data| == ByteCountArray(FromNative(req.format).value, req.elementCount)
    ensures !LongElements(req.holder, req.format) ==> w.data == (req.data + beyond)[..|w.data|]
  {
    var memory := (req.data + beyond)[..NativeReadLength(req)];
    if LongElements(req.holder, req.format) then
      assert |NarrowLongs(memory)| == 4 * req.elementCount by {
        assert |memory| == LONG_BYTES * req.elementCount;
      }
      req.(data := NarrowLongs(memory))
    else req.(data := memory)
  }

  /**
   * `get_property` of a holder as it is evidently meant to work: `long`
   * elements are narrowed back to 32 bits before the data is wrapped, so
   * that `byte_size` describes the buffer.
   */
  function GetPropertyCorrected(h: Holder, property: Atom.Atom, offset: int, length: int, delete: bool, ty: Atom.Atom, server: Server): (r: (Option<(PropertyData, nat)>, GetRequest))
    ensures r.1 == GetRequest(h, property.id, offset, length, BoolToInt(delete), ty.id)
    ensures r.0 == WrapReply(NarrowReply(h, server(r.1)), HolderDisplay(h))
  {
    var req := GetRequest(h, property.id, offset, length, BoolToInt(delete), ty.id);
    (WrapReply(NarrowReply(h, server(req)), HolderDisplay(h)), req)
  }

  /**
   * `get_property_completely` as it is evidently meant to work: the second
   * read asks for enough 32-bit units to cover every remaining byte, that
   * is `remaining / 4` rounded up, and both reads narrow `long` elements.
   */
  function GetPropertyCompletelyCorrected(h: Holder, property: Atom.Atom, delete: bool, ty: Atom.Atom, server: Server): (r: (Option<PropertyData>, seq<GetRequest>))
    ensures 1 <= |r.1| <= 2
    ensures r.1[0] == GetRequest(h, property.id, 0, 0, 0, ty.id)
    ensures |r.1| == 2 ==>
              var probe := WrapReply(NarrowReply(h, server(r.1[0])), HolderDisplay(h));
              && probe.Some?
              && r.1[1].offset == 0 && r.1[1].delete == BoolToInt(delete)
              && probe.value.1 <= 4 * r.1[1].length < probe.value.1 + 4
  {
    var (probe, req0) := GetPropertyCorrected(h, property, 0, 0, false, ty, server);
    match probe
    case None => (None, [req0])
    case Some((data, remaining)) =>
      if remaining < 1 then
        (Some(data), [req0])
      else
        var (second, req1) := GetPropertyCorrected(h, property, 0, (remaining + 3) / 4, delete, ty, server);
        match second
        case None => (None, [req0, req1])
        case Some((data', _)) => (Some(data'), [req0, req1])
  }

  // ---------------------------------------------------------------------
  // Reference model of the server side (section 9 of the X Window System
  // Protocol, requests ChangeProperty and GetProperty), for one holder.
  // ---------------------------------------------------------------------

  /** `AnyPropertyType` in a GetProperty request. */
  const ANY_PROPERTY_TYPE: int := 0

  /** A stored property: its type, its format and its value as bytes. */
  datatype StoredProperty = StoredProperty(propType: int, format: Format, bytes: seq<bv8>)

  /** The value of a property is a whole number of elements of its format. */
  predicate WellSized(p: StoredProperty) {
    |p.bytes| % ByteCount(p.format) == 0
  }

  type PropertyStore = map<int, StoredProperty>

  /**
   * The GetProperty reply: for a missing property, type None and format 0;
   * for a type mismatch, the actual type and format, no data and the whole
   * length as bytes-after; otherwise the bytes from `4 * offset` up to
   * `4 * length` bytes long, and the number of bytes after them.
   * (The request's deletion side effect is not part of the reply.)
   */
  function ServerGetProperty(store: PropertyStore, req: GetRequest): (r: NativeReply)
  {
    if req.property !in store then NativeReply(Atom.NONE, 0, 0, 0, [])
    else
      var p := store[req.property];
      if req.reqType != ANY_PROPERTY_TYPE && req.reqType != p.propType then
        NativeReply(p.propType, ToNative(p.format), 0, |p.bytes|, [])
      else
        var n := |p.bytes|;
        var start := 4 * req.offset;
        if start < 0 || start > n then NativeReply(Atom.NONE, 0, 0, 0, [])  // BadValue
        else
          var len := if req.length <= 0 then 0 else if n - start < 4 * req.length then n - start else 4 * req.length;
          NativeReply(p.propType, ToNative(p.format), len / ByteCount(p.format), n - (start + len), p.bytes[start .. start + len])
  }

  /** The server as the wrapper sees it through the native read call: one store answering every read. */
  function ServerOf(store: PropertyStore): (server: Server) {
    (req: GetRequest) => ClientReply(req.holder, ServerGetProperty(store, req))
  }

  /**
   * The ChangeProperty request with a valid format: Replace stores the new
   * value; Prepend and Append combine it with an existing value of the same
   * type and format, store it when there is none, and leave the store
   * unchanged (a Match error) otherwise.
   */
  function ServerChangeProperty(store: PropertyStore, req: ChangeRequest): (r: PropertyStore)
    requires FromNative(req.format).Some? && 0 <= req.elementCount
    requires ByteCountArray(FromNative(req.format).value, req.elementCount) <= |req.data|
  {
    var f := FromNative(req.format).value;
    var value := req.data[..ByteCountArray(f, req.elementCount)];
    if req.mode == ChangeModeToNative(Replace) || req.property !in store then
      store[req.property := StoredProperty(req.propType, f, value)]
    else
      var prev := store[req.property];
      if prev.propType != req.propType || prev.format != f then store
      else if req.mode == ChangeModeToNative(Prepend) then store[req.property := StoredProperty(req.propType, f, value + prev.bytes)]
      else if req.mode == ChangeModeToNative(Append) then store[req.property := StoredProperty(req.propType, f, prev.bytes + value)]
      else store
  }

  /**
   * The side effect of a GetProperty request: the property is deleted when
   * deletion was asked for, the type matched and nothing remains after the
   * bytes returned.
   */
  function ServerGetEffect(store: PropertyStore, req: GetRequest): (r: PropertyStore)
    ensures r.Keys <= store.Keys
  {
    var reply := ServerGetProperty(store, req);
    if req.delete == 1 && req.property in store && reply.actualFormat != 0
       && (req.reqType == ANY_PROPERTY_TYPE || req.reqType == store[req.property].propType)
       && reply.bytesAfter == 0
    then store - {req.property}
    else store
  }

  /** The DeleteProperty request: the property is gone, every other one is unchanged. */
  function ServerDeleteProperty(store: PropertyStore, req: DeleteRequest): (r: PropertyStore)
    ensures req.property !in r
    ensures forall k :: k in store && k != req.property ==> k in r && r[k] == store[k]
    ensures r.Keys <= store.Keys
  {
    store - {req.property}
  }

  /** A property readable with the requested type. */
  predicate Readable(store: PropertyStore, property: int, reqType: int) {
    && property in store
    && (reqType == ANY_PROPERTY_TYPE || reqType == store[property].propType)
  }

  /** Reading a missing property yields nothing, after the probe alone. */
  lemma CompletelyMissing(store: PropertyStore, h: Holder, property: Atom.Atom, delete: bool, ty: Atom.Atom)
    requires property.id !in store
    ensures GetPropertyCompletely(h, property, delete, ty, ServerOf(store)).0.None?
    ensures |GetPropertyCompletely(h, property, delete, ty, ServerOf(store)).1| == 1
    ensures GetPropertyCompletelyCorrected(h, property, delete, ty, ServerOf(store)).0.None?
  {
  }

  /** The probe read: no data, the stored format, and the whole length remaining. */
  lemma ProbeReply(store: PropertyStore, h: Holder, property: Atom.Atom, ty: Atom.Atom)
    requires Readable(store, property.id, ty.id)
    ensures var reply := ServerGetProperty(store, GetRequest(h, property.id, 0, 0, 0, ty.id));
            && FromNative(reply.actualFormat) == Some(store[property.id].format)
            && reply.itemCount == 0
            && reply.bytesAfter == |store[property.id].bytes|
  {
  }

  /** A multiple of four is a whole number of elements of any format. */
  lemma ElementsOf(f: Format, x: nat)
    requires x % 4 == 0 || x % ByteCount(f) == 0
    ensures x % ByteCount(f) == 0
    ensures (x / ByteCount(f)) * ByteCount(f) == x
  {
    match f
    case Bit8 =>
    case Bit16 => PairsOf(x);
    case Bit32 => QuadsOf(x);
  }

  /** Halving a multiple of four or of two is exact. */
  lemma PairsOf(x: nat)
    requires x % 4 == 0 || x % 2 == 0
    ensures x % 2 == 0 && (x / 2) * 2 == x
  {
    if x % 4 == 0 {
      var k := x / 4;
      assert x == 4 * k;
      assert x == 2 * (2 * k) + 0;
      assert x / 2 == 2 * k;
    }
    assert x == 2 * (x / 2) + x % 2;
  }

  /** Quartering a multiple of four is exact. */
  lemma QuadsOf(x: nat)
    requires x % 4 == 0
    ensures (x / 4) * 4 == x
  {
  }

  /**
   * The second read of offset 0 and `units` 32-bit units of a readable,
   * well-sized property returns its first `min(N, 4 * units)` bytes as
   * whole elements, and the rest as remaining.
   */
  lemma PrefixRead(store: PropertyStore, h: Holder, property: int, units: int, delete: int, reqType: int)
    requires Readable(store, property, reqType) && WellSized(store[property])
    requires units >= 1 && 4 * units <= |store[property].bytes| + 3
    ensures var p := store[property];
            var len := if |p.bytes| < 4 * units then |p.bytes| else 4 * units;
            var reply := ServerGetProperty(store, GetRequest(h, property, 0, units, delete, reqType));
            && reply.actualType == p.propType
            && FromNative(reply.actualFormat) == Some(p.format)
            && reply.data == p.bytes[..len]
            && reply.itemCount * ByteCount(p.format) == len
            && reply.bytesAfter == |p.bytes| - len
  {
    var p := store[property];
    var n := |p.bytes|;
    var len := if n < 4 * units then n else 4 * units;
    var req := GetRequest(h, property, 0, units, delete, reqType);
    assert len == (if n - 0 < 4 * units then n - 0 else 4 * units);
    ElementsOf(p.format, len);
    assert ServerGetProperty(store, req) == NativeReply(p.propType, ToNative(p.format), len / ByteCount(p.format), n - (0 + len), p.bytes[0 .. 0 + len]);
  }

  /**
   * As written, reading a readable well-sized property completely returns
   * only its first `4 * (N / 4)` bytes: whatever does not fill a whole
   * 32-bit unit at the end is dropped. For `long` elements the slice covers
   * only the first half of the widened buffer.
   */
  lemma {:induction false} CompletelyTruncates(store: PropertyStore, h: Holder, property: Atom.Atom, delete: bool, ty: Atom.Atom)
    requires Readable(store, property.id, ty.id) && WellSized(store[property.id])
    ensures var r := GetPropertyCompletely(h, property, delete, ty, ServerOf(store)).0;
            var p := store[property.id];
            var prefix := p.bytes[..4 * (|p.bytes| / 4)];
            && r.Some?
            && r.value.format == p.format
            && r.value.actualType == Atom.Atom(p.propType, HolderDisplay(h))
            && ByteSize(r.value) == |prefix| <= |r.value.buffer|
            && AsSlice(r.value) == (if LongElements(h, ToNative(p.format)) then WidenToLongs(prefix)[..|prefix|] else prefix)
  {
    var p := store[property.id];
    var n := |p.bytes|;
    var prefix := p.bytes[..4 * (n / 4)];
    ProbeReply(store, h, property, ty);
    if n >= 4 {
      PrefixRead(store, h, property.id, n / 4, BoolToInt(delete), ty.id);
      var wire1 := ServerGetProperty(store, GetRequest(h, property.id, 0, n / 4, BoolToInt(delete), ty.id));
      assert wire1.data == prefix;
      if LongElements(h, wire1.actualFormat) {
        assert |prefix| % 4 == 0;
        assert |WidenToLongs(prefix)| == 2 * |prefix|;
      }
    } else if n >= 1 {
      var req1 := GetRequest(h, property.id, 0, n / 4, BoolToInt(delete), ty.id);
      assert ServerGetProperty(store, req1).data == [];
    }
  }

  /** The smallest case of the truncation: the 8-bit property [1, 2, 3] reads back empty, and is not deleted. */
  lemma CompletelyTruncatesExample(h: Holder, property: Atom.Atom, ty: Atom.Atom)
    requires property.id != Atom.NONE && ty.id == ANY_PROPERTY_TYPE
    ensures var store: PropertyStore := map[property.id := StoredProperty(31, Bit8, [1, 2, 3])];
            var (r, reqs) := GetPropertyCompletely(h, property, true, ty, ServerOf(store));
            && r.Some? && r.value.itemCount == 0 && AsSlice(r.value) == []
            && |reqs| == 2 && property.id in ServerGetEffect(store, reqs[1])
  {
    var store: PropertyStore := map[property.id := StoredProperty(31, Bit8, [1, 2, 3])];
    var req1 := GetRequest(h, property.id, 0, 0, 1, ty.id);
    assert ServerGetProperty(store, req1).bytesAfter == 3;
  }

  /**
   * As written, a window property holding the 32-bit elements 1 and 2 reads
   * back as the bytes of the `long` 1: `byte_size` counts 4 bytes per
   * element of a buffer that holds 8.
   */
  lemma Get32LongsExample(h: Holder, property: Atom.Atom, ty: Atom.Atom)
    requires h.WindowHolder? && ty.id == ANY_PROPERTY_TYPE
    ensures var store: PropertyStore := map[property.id := StoredProperty(31, Bit32, [1, 0, 0, 0, 2, 0, 0, 0])];
            var r := GetPropertyCompletely(h, property, false, ty, ServerOf(store)).0;
            && r.Some? && r.value.itemCount == 2 && ByteSize(r.value) == 8 <= |r.value.buffer|
            && AsSlice(r.value) == [1, 0, 0, 0, 0, 0, 0, 0]
  {
    var store: PropertyStore := map[property.id := StoredProperty(31, Bit32, [1, 0, 0, 0, 2, 0, 0, 0])];
    CompletelyTruncates(store, h, property, false, ty);
    WidenOneTwo();
  }

  /** Corrected, the probe of a readable property wraps to no data, the stored format and type, and the whole length remaining. */
  lemma CorrectedProbe(store: PropertyStore, h: Holder, property: Atom.Atom, ty: Atom.Atom)
    requires Readable(store, property.id, ty.id)
    ensures var p := store[property.id];
            var reply := NarrowReply(h, ServerOf(store)(GetRequest(h, property.id, 0, 0, 0, ty.id)));
            WrapReply(reply, HolderDisplay(h)) == Some((PropertyData(p.format, Atom.Atom(p.propType, HolderDisplay(h)), 0, []), |p.bytes|))
  {
    var wire0 := ServerGetProperty(store, GetRequest(h, property.id, 0, 0, 0, ty.id));
    ProbeReply(store, h, property, ty);
    assert wire0.data == [];
    NarrowClientReply(h, wire0);
  }

  /**
   * Corrected, a second read of `(N + 3) / 4` units of a readable,
   * well-sized, non-empty property wraps to all of its bytes.
   */
  lemma CorrectedSecondRead(store: PropertyStore, h: Holder, property: Atom.Atom, delete: bool, ty: Atom.Atom)
    requires Readable(store, property.id, ty.id) && WellSized(store[property.id]) && |store[property.id].bytes| >= 1
    ensures var p := store[property.id];
            var req1 := GetRequest(h, property.id, 0, (|p.bytes| + 3) / 4, BoolToInt(delete), ty.id);
            var second := WrapReply(NarrowReply(h, ServerOf(store)(req1)), HolderDisplay(h));
            && second.Some?
            && second.value.0.format == p.format
            && second.value.0.actualType == Atom.Atom(p.propType, HolderDisplay(h))
            && ByteSize(second.value.0) == |p.bytes|
            && second.value.0.buffer == p.bytes
  {
    var p := store[property.id];
    var req1 := GetRequest(h, property.id, 0, (|p.bytes| + 3) / 4, BoolToInt(delete), ty.id);
    var wire1 := ServerGetProperty(store, req1);
    SecondWireReply(store, h, property, delete, ty);
    if LongElements(h, wire1.actualFormat) {
      assert p.format == Bit32;
    }
    NarrowClientReply(h, wire1);
  }

  /** The protocol reply to that second read: every byte, as whole elements, with nothing after. */
  lemma SecondWireReply(store: PropertyStore, h: Holder, property: Atom.Atom, delete: bool, ty: Atom.Atom)
    requires Readable(store, property.id, ty.id) && WellSized(store[property.id]) && |store[property.id].bytes| >= 1
    ensures var p := store[property.id];
            var wire1 := ServerGetProperty(store, GetRequest(h, property.id, 0, (|p.bytes| + 3) / 4, BoolToInt(delete), ty.id));
            && wire1.actualType == p.propType
            && FromNative(wire1.actualFormat) == Some(p.format)
            && wire1.data == p.bytes
            && wire1.itemCount * ByteCount(p.format) == |p.bytes|
            && wire1.bytesAfter == 0
  {
    var p := store[property.id];
    PrefixRead(store, h, property.id, (|p.bytes| + 3) / 4, BoolToInt(delete), ty.id);
  }

  /** That second read deletes the property exactly when asked to. */
  lemma SecondReadDeletes(store: PropertyStore, h: Holder, property: Atom.Atom, delete: bool, ty: Atom.Atom)
    requires Readable(store, property.id, ty.id) && WellSized(store[property.id]) && |store[property.id].bytes| >= 1
    ensures var p := store[property.id];
            var req1 := GetRequest(h, property.id, 0, (|p.bytes| + 3) / 4, BoolToInt(delete), ty.id);
            property.id in ServerGetEffect(store, req1) <==> !delete
  {
    SecondWireReply(store, h, property, delete, ty);
  }

  /** Corrected, reading a readable well-sized property completely returns all of it, and honours `delete`. */
  lemma {:induction false} CompletelyCorrectedReadsAll(store: PropertyStore, h: Holder, property: Atom.Atom, delete: bool, ty: Atom.Atom)
    requires Readable(store, property.id, ty.id) && WellSized(store[property.id])
    ensures var (r, reqs) := GetPropertyCompletelyCorrected(h, property, delete, ty, ServerOf(store));
            var p := store[property.id];
            && r.Some?
            && r.value.format == p.format
            && r.value.actualType == Atom.Atom(p.propType, HolderDisplay(h))
            && ByteSize(r.value) == |p.bytes| <= |r.value.buffer|
            && AsSlice(r.value) == p.bytes
            && (|p.bytes| > 0 ==> |reqs| == 2 && (property.id in ServerGetEffect(store, reqs[1]) <==> !delete))
  {
    CorrectedReadsData(store, h, property, delete, ty);
    if |store[property.id].bytes| >= 1 {
      CorrectedReadsRequests(store, h, property, delete, ty);
      SecondReadDeletes(store, h, property, delete, ty);
    }
  }

  /** The data part of that: the whole value, with its format and type. */
  lemma CorrectedReadsData(store: PropertyStore, h: Holder, property: Atom.Atom, delete: bool, ty: Atom.Atom)
    requires Readable(store, property.id, ty.id) && WellSized(store[property.id])
    ensures var r := GetPropertyCompletelyCorrected(h, property, delete, ty, ServerOf(store)).0;
            var p := store[property.id];
            && r.Some?
            && r.value.format == p.format
            && r.value.actualType == Atom.Atom(p.propType, HolderDisplay(h))
            && ByteSize(r.value) == |p.bytes| <= |r.value.buffer|
            && AsSlice(r.value) == p.bytes
  {
    var server := ServerOf(store);
    var n := |store[property.id].bytes|;
    CorrectedProbe(store, h, property, ty);
    var probe := GetPropertyCorrected(h, property, 0, 0, false, ty, server);
    assert probe.0.Some? && probe.0.value.1 == n;
    if n >= 1 {
      CorrectedSecondRead(store, h, property, delete, ty);
      var second := GetPropertyCorrected(h, property, 0, (n + 3) / 4, delete, ty, server);
      assert second.0.Some?;
      assert GetPropertyCompletelyCorrected(h, property, delete, ty, server).0 == Some(second.0.value.0);
    }
  }

  /** The requests part of that: for a non-empty value, the probe and then a read of `(N + 3) / 4` units. */
  lemma CorrectedReadsRequests(store: PropertyStore, h: Holder, property: Atom.Atom, delete: bool, ty: Atom.Atom)
    requires Readable(store, property.id, ty.id) && |store[property.id].bytes| >= 1
    ensures var reqs := GetPropertyCompletelyCorrected(h, property, delete, ty, ServerOf(store)).1;
            var n := |store[property.id].bytes|;
            reqs == [GetRequest(h, property.id, 0, 0, 0, ty.id), GetRequest(h, property.id, 0, (n + 3) / 4, BoolToInt(delete), ty.id)]
  {
    CorrectedProbe(store, h, property, ty);
  }

  /** Equal multiples of a positive number have equal multipliers. */
  lemma MulCancel(c: int, x: int, y: int)
    requires c > 0 && c * x == c * y
    ensures x == y
  {
    assert c * (x - y) == 0;
    MulSign(c, x - y);
  }

  /** The memory image of a slice of elements of the format's width is a whole number of elements. */
  lemma LayoutWellSized(propType: int, f: Format, data: seq<int>)
    ensures WellSized(StoredProperty(propType, f, Layout(data, ByteCount(f))))
  {
    var c := ByteCount(f);
    DivModUnique(c * |data|, c, |data|, 0);
  }

  /** Corrected, a stored well-sized value reads back completely, as `n` elements holding its bytes. */
  lemma ReadBackStored(store: PropertyStore, h: Holder, property: Atom.Atom, ty: Atom.Atom, f: Format, bytes: seq<bv8>, n: nat)
    requires property.id in store && store[property.id] == StoredProperty(ty.id, f, bytes)
    requires |bytes| == ByteCount(f) * n
    ensures var r := GetPropertyCompletelyCorrected(h, property, false, ty, ServerOf(store)).0;
            && r.Some? && r.value.format == f && r.value.itemCount == n
            && ByteSize(r.value) <= |r.value.buffer| && AsSlice(r.value) == bytes
  {
    DivModUnique(|bytes|, ByteCount(f), n, 0);
    CompletelyCorrectedReadsAll(store, h, property, false, ty);
    var r := GetPropertyCompletelyCorrected(h, property, false, ty, ServerOf(store)).0;
    MulCancel(ByteCount(f), r.value.itemCount, n);
  }

  /** Writing 8-bit data with Replace and reading it back completely gives the data. */
  lemma Change8RoundTrip(store: PropertyStore, h: Holder, property: Atom.Atom, ty: Atom.Atom, data: seq<bv8>)
    ensures var req := ChangeProperty8(h, property, ty, Replace, data);
            && NativeReadLength(req) == |req.data|
            && var store' := ServerChangeProperty(store, WireRequest(req, []));
               var r := GetPropertyCompletelyCorrected(h, property, false, ty, ServerOf(store')).0;
               && r.Some? && r.value.format == Bit8 && r.value.itemCount == |data|
               && ByteSize(r.value) <= |r.value.buffer| && AsSlice(r.value) == data
  {
    var req := ChangeProperty8(h, property, ty, Replace, data);
    var store' := ServerChangeProperty(store, WireRequest(req, []));
    assert WireRequest(req, []).data == data;
    ReplaceStores(store, WireRequest(req, []));
    ReadBackStored(store', h, property, ty, Bit8, data, |data|);
  }

  /** Writing 16-bit data with Replace and reading it back completely gives its memory layout, one element per value. */
  lemma Change16RoundTrip(store: PropertyStore, h: Holder, property: Atom.Atom, ty: Atom.Atom, data: seq<int>)
    ensures var req := ChangeProperty16(h, property, ty, Replace, data);
            && NativeReadLength(req) == |req.data|
            && var store' := ServerChangeProperty(store, WireRequest(req, []));
               var r := GetPropertyCompletelyCorrected(h, property, false, ty, ServerOf(store')).0;
               && r.Some? && r.value.format == Bit16 && r.value.itemCount == |data|
               && ByteSize(r.value) <= |r.value.buffer| && AsSlice(r.value) == Layout(data, 2)
  {
    var req := ChangeProperty16(h, property, ty, Replace, data);
    var store' := ServerChangeProperty(store, WireRequest(req, []));
    assert WireRequest(req, []).data == Layout(data, 2);
    ReplaceStores(store, WireRequest(req, []));
    ReadBackStored(store', h, property, ty, Bit16, Layout(data, 2), |data|);
  }

  /**
   * Writing 32-bit data to a device with Replace and reading it back
   * completely gives its memory layout, one element per value.
   */
  lemma Change32RoundTrip(store: PropertyStore, h: Holder, property: Atom.Atom, ty: Atom.Atom, data: seq<int>)
    requires h.DeviceHolder?
    ensures var req := ChangeProperty32(h, property, ty, Replace, data);
            && NativeReadLength(req) == |req.data|
            && var store' := ServerChangeProperty(store, WireRequest(req, []));
               var r := GetPropertyCompletelyCorrected(h, property, false, ty, ServerOf(store')).0;
               && r.Some? && r.value.format == Bit32 && r.value.itemCount == |data|
               && ByteSize(r.value) <= |r.value.buffer| && AsSlice(r.value) == Layout(data, 4)
  {
    var req := ChangeProperty32(h, property, ty, Replace, data);
    var store' := ServerChangeProperty(store, WireRequest(req, []));
    assert WireRequest(req, []).data == Layout(data, 4);
    ReplaceStores(store, WireRequest(req, []));
    ReadBackStored(store', h, property, ty, Bit32, Layout(data, 4), |data|);
  }

  /**
   * As written, `change_property32` on a window passes the `4 * n` bytes of
   * an `i32` slice to a call that reads `n` `long`s: it reads `4 * n` bytes
   * past the end of the slice.
   */
  lemma Change32ReadsPastSlice(h: Holder, property: Atom.Atom, ty: Atom.Atom, mode: ChangeMode, data: seq<int>)
    ensures var req := ChangeProperty32(h, property, ty, mode, data);
            NativeReadLength(req) == |req.data| + (if h.WindowHolder? then 4 * |data| else 0)
  {
  }

  /**
   * The smallest case: writing [1, 2] to a window stores the element 1 and
   * then four bytes of whatever memory follows the slice, which are the
   * element 2 only by accident.
   */
  lemma Change32PastSliceExample(h: Holder, property: Atom.Atom, ty: Atom.Atom, beyond: seq<bv8>)
    requires h.WindowHolder? && |beyond| >= 8
    ensures var w := WireRequest(ChangeProperty32(h, property, ty, Replace, [1, 2]), beyond);
            && w.data == [1, 0, 0, 0] + beyond[..4]
            && (w.data == Layout([1, 2], 4) <==> beyond[..4] == [2, 0, 0, 0])
  {
    LayoutOneTwo();
    NarrowPastOneTwo(beyond);
    var first: seq<bv8> := [1, 0, 0, 0];
    assert (first + beyond[..4])[4..] == beyond[..4];
  }

  /**
   * `change_property32` as it is evidently meant to work: for a holder whose
   * native call takes `long`s, each value is passed as a `long`, so that the
   * call reads exactly the buffer passed.
   */
  function ChangeProperty32Corrected(h: Holder, property: Atom.Atom, ty: Atom.Atom, mode: ChangeMode, data: seq<int>): (r: ChangeRequest)
    ensures r.holder == h && r.property == property.id && r.propType == ty.id
    ensures r.format == 32 && r.mode == ChangeModeToNative(mode) && r.elementCount == |data|
    ensures NativeReadLength(r) == |r.data|
  {
    ChangePropertyUnsafe(h, property, ty, Bit32, mode, Layout(data, ClientElementBytes(h, Bit32)), |data|)
  }

  /** Corrected, the native change call sends the values of a 32-bit write as 32-bit elements, for every holder. */
  lemma Change32CorrectedWire(h: Holder, property: Atom.Atom, ty: Atom.Atom, mode: ChangeMode, data: seq<int>)
    ensures WireRequest(ChangeProperty32Corrected(h, property, ty, mode, data), []).data == Layout(data, 4)
  {
    var req := ChangeProperty32Corrected(h, property, ty, mode, data);
    assert (req.data + [])[..NativeReadLength(req)] == req.data;
    if LongElements(h, 32) {
      assert req.data == Layout(data, LONG_BYTES);
      NarrowLayout(data);
    }
  }

  /** Corrected, writing 32-bit data to any holder with Replace and reading it back completely gives its memory layout. */
  lemma Change32CorrectedRoundTrip(store: PropertyStore, h: Holder, property: Atom.Atom, ty: Atom.Atom, data: seq<int>)
    ensures var req := ChangeProperty32Corrected(h, property, ty, Replace, data);
            var store' := ServerChangeProperty(store, WireRequest(req, []));
            var r := GetPropertyCompletelyCorrected(h, property, false, ty, ServerOf(store')).0;
            && r.Some? && r.value.format == Bit32 && r.value.itemCount == |data|
            && ByteSize(r.value) <= |r.value.buffer| && AsSlice(r.value) == Layout(data, 4)
  {
    var req := ChangeProperty32Corrected(h, property, ty, Replace, data);
    var w := WireRequest(req, []);
    Change32CorrectedWire(h, property, ty, Replace, data);
    var store' := ServerChangeProperty(store, w);
    ReplaceStores(store, w);
    ReadBackStored(store', h, property, ty, Bit32, Layout(data, 4), |data|);
  }

  /** Replacing stores the request's value under its property, whatever was there before. */
  lemma ReplaceStores(store: PropertyStore, req: ChangeRequest)
    requires FromNative(req.format).Some? && 0 <= req.elementCount
    requires ByteCountArray(FromNative(req.format).value, req.elementCount) == |req.data|
    requires req.mode == ChangeModeToNative(Replace)
    ensures var r := ServerChangeProperty(store, req);
            req.property in r && r[req.property] == StoredProperty(req.propType, FromNative(req.format).value, req.data)
  {
    assert req.data[..|req.data|] == req.data;
  }

  /** Appending to a property of the same type and format extends its value; other properties are unchanged. */
  lemma AppendExtends(store: PropertyStore, req: ChangeRequest)
    requires FromNative(req.format).Some? && 0 <= req.elementCount
    requires ByteCountArray(FromNative(req.format).value, req.elementCount) == |req.data|
    requires req.mode == ChangeModeToNative(Append)
    requires req.property in store && store[req.property].propType == req.propType
    requires store[req.property].format == FromNative(req.format).value
    ensures var r := ServerChangeProperty(store, req);
            && r[req.property].bytes == store[req.property].bytes + req.data
            && (forall k :: k in store && k != req.property ==> k in r && r[k] == store[k])
  {
    assert req.data[..|req.data|] == req.data;
  }

  /** A change keeps every stored value a whole number of elements. */
  lemma ChangeKeepsWellSized(store: PropertyStore, req: ChangeRequest)
    requires FromNative(req.format).Some? && 0 <= req.elementCount
    requires ByteCountArray(FromNative(req.format).value, req.elementCount) <= |req.data|
    requires forall k :: k in store ==> WellSized(store[k])
    ensures var r := ServerChangeProperty(store, req);
            forall k :: k in r ==> WellSized(r[k])
  {
    var f := FromNative(req.format).value;
    var c := ByteCount(f);
    var size := ByteCountArray(f, req.elementCount);
    DivModUnique(size, c, req.elementCount, 0);
    if req.property in store && store[req.property].format == f {
      var prev := |store[req.property].bytes|;
      WholeElements(c, size, prev);
      WholeElements(c, prev, size);
    }
  }

  /** Two whole numbers of elements make a whole number of elements. */
  lemma WholeElements(c: int, x: int, y: int)
    requires c > 0 && x % c == 0 && y % c == 0
    ensures (x + y) % c == 0
  {
    assert x == c * (x / c) && y == c * (y / c);
    assert x + y == c * (x / c + y / c) + 0;
    DivModUnique(x + y, c, x / c + y / c, 0);
  }
}
