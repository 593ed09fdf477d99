/**
 * Cursors (`XCursor`) and XFixes cursor images (`XCursorImage`), with the
 * conversion of an image's packed ARGB pixel words to RGBA bytes.
 */
module Cursor {
  import opened Wrappers

  /** `XCursor`: a cursor handle on a display. */
  datatype Cursor = Cursor(handle: int, display: int)

  /** `XCursor::new`. */
  function New(handle: int, display: int): (r: Cursor)
    ensures Handle(r) == handle && r.display == display
  {
    Cursor(handle, display)
  }

  /** `handle`. */
  function Handle(c: Cursor): int {
    c.handle
  }

  /**
   * The `XFixesCursorImage` an `XCursorImage` points at: 16-bit sizes and
   * hotspot, and one `unsigned long` word per pixel holding 0xAARRGGBB in
   * its low 32 bits.
   */
  datatype CursorImage = CursorImage(width: nat, height: nat, xhot: nat, yhot: nat, pixels: seq<bv64>)

  const U16_LIMIT: nat := 0x1_0000

  /** The four RGBA bytes of one pixel word; bits above the low 32 are ignored. */
  function Rgba(p: bv64): (r: seq<bv8>)
    ensures |r| == 4
  {
    var pixel := p & 0xFFFF_FFFF;
    [((pixel & 0x00FF_0000) >> 16) as bv8,
     ((pixel & 0x0000_FF00) >> 8) as bv8,
     (pixel & 0x0000_00FF) as bv8,
     ((pixel & 0xFF00_0000) >> 24) as bv8]
  }

  /** Per channel: red is bits 16..24, green 8..16, blue 0..8 and alpha 24..32 of the word. */
  lemma RgbaChannels(p: bv64)
    ensures Rgba(p)[0] == ((p >> 16) & 0xFF) as bv8
    ensures Rgba(p)[1] == ((p >> 8) & 0xFF) as bv8
    ensures Rgba(p)[2] == (p & 0xFF) as bv8
    ensures Rgba(p)[3] == ((p >> 24) & 0xFF) as bv8
    ensures Rgba(p) == Rgba(p & 0xFFFF_FFFF)
  {
  }

  /** The RGBA bytes of a pixel sequence, pixel after pixel. */
  function RgbaAll(ps: seq<bv64>): (r: seq<bv8>)
    ensures |r| == 4 * |ps|
  {
    if ps == [] then [] else RgbaAll(ps[..|ps| - 1]) + Rgba(ps[|ps| - 1])
  }

  /** Pixel `i` lands at bytes `4 * i .. 4 * i + 4`. */
  lemma {:induction false} RgbaAllAt(ps: seq<bv64>, i: nat)
    requires i < |ps|
    ensures RgbaAll(ps)[4 * i .. 4 * i + 4] == Rgba(ps[i])
    decreases |ps|
  {
    var init := ps[..|ps| - 1];
    if i < |ps| - 1 {
      RgbaAllAt(init, i);
      assert ps[i] == init[i];
      assert RgbaAll(ps)[4 * i .. 4 * i + 4] == RgbaAll(init)[4 * i .. 4 * i + 4];
    } else {
      assert RgbaAll(ps)[4 * i .. 4 * i + 4] == Rgba(ps[|ps| - 1]);
    }
  }

  /**
   * `rgba_data`: the pixel count is a 16-bit product (an overflow panics),
   * then every pixel contributes its four RGBA bytes, in pixel order.
   */
  method RgbaData(img: CursorImage) returns (r: Result<seq<bv8>, Panic>)
    requires img.width < U16_LIMIT && img.height < U16_LIMIT
    requires img.width * img.height < U16_LIMIT ==> img.width * img.height <= |img.pixels|
    ensures r.Failure? <==> img.width * img.height >= U16_LIMIT
    ensures r.Success? ==> r.value == RgbaAll(img.pixels[..img.width * img.height])
    ensures r.Success? ==> |r.value| == 4 * (img.width * img.height)
    ensures r.Success? ==> forall i :: 0 <= i < img.width * img.height ==> r.value[4 * i .. 4 * i + 4] == Rgba(img.pixels[i])
  {
    var size := img.width * img.height;
    if size >= U16_LIMIT {
      return Failure(ArithmeticOverflow("u16 multiplication"));
    }
    var buffer: seq<bv8> := [];
    var i := 0;
    while i < size
      invariant 0 <= i <= size
      invariant buffer == RgbaAll(img.pixels[..i])
    {
      var pixel := img.pixels[i] & 0xFFFF_FFFF;
      var bytes := [((pixel & 0x00FF_0000) >> 16) as bv8, ((pixel & 0x0000_FF00) >> 8) as bv8,
                    (pixel & 0x0000_00FF) as bv8, ((pixel & 0xFF00_0000) >> 24) as bv8];
      assert bytes == Rgba(img.pixels[i]);
      assert img.pixels[..i + 1][..i] == img.pixels[..i];
      assert RgbaAll(img.pixels[..i + 1]) == RgbaAll(img.pixels[..i]) + Rgba(img.pixels[i]);
      buffer := buffer + bytes;
      i := i + 1;
    }
    forall k | 0 <= k < size
      ensures buffer[4 * k .. 4 * k + 4] == Rgba(img.pixels[k])
    {
      RgbaAllAt(img.pixels[..size], k);
    }
    return Success(buffer);
  }
}
