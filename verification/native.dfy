/**
 * Fixed-width integer casts and bit tests of the C and Rust types the
 * wrapper converts between. Integers are unbounded in the model, so every
 * `as` cast of the source that can change a value is written out here.
 */
module Native {
  import opened Bytes

  const TWO_8: int := 0x100
  const TWO_16: int := 0x1_0000
  const TWO_32: int := 0x1_0000_0000

  /** `x as u8`: keep the low 8 bits. */
  function WrapU8(x: int): (r: int)
    ensures 0 <= r < TWO_8
    ensures (r - x) % TWO_8 == 0
    ensures 0 <= x < TWO_8 ==> r == x
  {
    x % TWO_8
  }

  /** `x as u32`: keep the low 32 bits. */
  function WrapU32(x: int): (r: int)
    ensures 0 <= r < TWO_32
    ensures (r - x) % TWO_32 == 0
    ensures 0 <= x < TWO_32 ==> r == x
  {
    x % TWO_32
  }

  /** `x as i8`: keep the low 8 bits, read as two's complement. */
  function WrapI8(x: int): (r: int)
    ensures -0x80 <= r < 0x80
    ensures (r - x) % TWO_8 == 0
    ensures -0x80 <= x < 0x80 ==> r == x
  {
    var u := x % TWO_8;
    if u < 0x80 then u else u - TWO_8
  }

  /** `x as i16`: keep the low 16 bits, read as two's complement. */
  function WrapI16(x: int): (r: int)
    ensures -0x8000 <= r < 0x8000
    ensures (r - x) % TWO_16 == 0
    ensures -0x8000 <= x < 0x8000 ==> r == x
  {
    var u := x % TWO_16;
    if u < 0x8000 then u else u - TWO_16
  }

  /** `x as i32`: keep the low 32 bits, read as two's complement. */
  function WrapI32(x: int): (r: int)
    ensures -0x8000_0000 <= r < 0x8000_0000
    ensures (r - x) % TWO_32 == 0
    ensures -0x8000_0000 <= x < 0x8000_0000 ==> r == x
  {
    var u := x % TWO_32;
    if u < 0x8000_0000 then u else u - TWO_32
  }

  /** C's `x != 0` as a Rust `bool`. */
  function NonZero(x: int): bool {
    x != 0
  }

  /** Rust's `b as _` / `i32::from(b)` for a `bool`. */
  function BoolToInt(b: bool): (r: int)
    ensures r == 0 || r == 1
    ensures NonZero(r) == b
  {
    if b then 1 else 0
  }

  /** A string the source can turn into a C string with `CString::new(..).unwrap()`, which panics on a NUL. */
  predicate NoNul(s: string) {
    forall i :: 0 <= i < |s| ==> s[i] != '\0'
  }

  /** A `double` of the native structs; the wrapper only copies them, so the bit pattern is all the model keeps. */
  type Float64 = bv64

  /** The `width` bytes of `x` in two's complement, least significant first (the x86-64 memory layout). */
  function LittleEndian(x: int, width: nat): (r: seq<bv8>)
    ensures |r| == width
    decreases width
  {
    if width == 0 then [] else [(x % 256) as bv8] + LittleEndian(x / 256, width - 1)
  }

  /** The memory image of a slice of `width`-byte integers: each element's bytes, in element order. */
  function Layout(items: seq<int>, width: nat): (r: seq<bv8>)
    ensures |r| == width * |items|
  {
    if items == [] then [] else LittleEndian(items[0], width) + Layout(items[1..], width)
  }

  /** 256 to the power `width`: the number of values `width` bytes can hold. */
  function Pow256(width: nat): (r: nat)
    ensures r >= 1
  {
    if width == 0 then 1 else 256 * Pow256(width - 1)
  }

  /** The unsigned value of bytes stored least significant first. */
  function FromLittleEndian(bytes: seq<bv8>): (r: nat)
    ensures r < Pow256(|bytes|)
  {
    if bytes == [] then 0 else bytes[0] as nat + 256 * FromLittleEndian(bytes[1..])
  }

  /** Euclidean division is unique: a quotient and a remainder in range are the ones `/` and `%` give. */
  lemma DivModUnique(x: int, m: int, q: int, rem: int)
    requires m > 0 && x == m * q + rem && 0 <= rem < m
    ensures x / m == q && x % m == rem
  {
    var q', rem' := x / m, x % m;
    assert m * (q - q') == rem' - rem;
    MulSign(m, q - q');
  }

  /** A positive multiplicand keeps a nonzero multiplier's product at least as far from zero. */
  lemma MulSign(m: int, d: int)
    requires m > 0
    ensures d >= 1 ==> m * d >= m
    ensures d <= -1 ==> m * d <= -m
  {
  }

  /** Taking the low byte off and reducing the rest modulo `p` reduces `x` modulo `256 * p`. */
  lemma ModByteSplit(x: int, p: nat)
    requires p >= 1
    ensures x % (256 * p) == x % 256 + 256 * ((x / 256) % p)
  {
    var q := x / 256;
    var k := q / p;
    var b := q % p;
    assert x == 256 * q + x % 256;
    assert q == p * k + b;
    assert x == (256 * p) * k + (x % 256 + 256 * b) by {
      assert 256 * q == 256 * (p * k) + 256 * b;
      assert 256 * (p * k) == (256 * p) * k;
    }
    DivModUnique(x, 256 * p, k, x % 256 + 256 * b);
  }

  /** Decoding the bytes of `x` gives `x` reduced to the width: two's complement bytes carry `x` modulo `256^width`. */
  lemma {:induction false} LittleEndianRoundTrip(x: int, width: nat)
    ensures FromLittleEndian(LittleEndian(x, width)) == x % Pow256(width)
    decreases width
  {
    if width > 0 {
      var bytes := LittleEndian(x, width);
      var rest := LittleEndian(x / 256, width - 1);
      var p := Pow256(width - 1);
      assert bytes == [(x % 256) as bv8] + rest;
      assert bytes[1..] == rest;
      ByteValue(x % 256);
      assert bytes[0] as int == x % 256;
      LittleEndianRoundTrip(x / 256, width - 1);
      assert FromLittleEndian(bytes) == x % 256 + 256 * ((x / 256) % p);
      ModByteSplit(x, p);
    }
  }

  /** Encoding the value of some bytes at their own width gives the bytes back. */
  lemma {:induction false} FromLittleEndianRoundTrip(bytes: seq<bv8>)
    ensures LittleEndian(FromLittleEndian(bytes), |bytes|) == bytes
    decreases |bytes|
  {
    if bytes != [] {
      var x := FromLittleEndian(bytes);
      var rest := FromLittleEndian(bytes[1..]);
      DivModUnique(x, 256, rest, bytes[0] as int);
      FromLittleEndianRoundTrip(bytes[1..]);
      assert ((x % 256) as bv8) == bytes[0];
    }
  }

  /** The first `k` bytes of `x` at any wider width are the bytes of `x` at width `k`. */
  lemma {:induction false} LittleEndianPrefix(x: int, width: nat, k: nat)
    requires k <= width
    ensures LittleEndian(x, width)[..k] == LittleEndian(x, k)
    decreases k
  {
    if k > 0 {
      LittleEndianPrefix(x / 256, width - 1, k - 1);
    }
  }

  /** Element `i` of a slice occupies bytes `width * i` up to `width * (i + 1)` of its memory image. */
  lemma {:induction false} LayoutElement(items: seq<int>, width: nat, i: nat)
    requires i < |items|
    ensures width * (i + 1) <= |Layout(items, width)|
    ensures Layout(items, width)[width * i .. width * (i + 1)] == LittleEndian(items[i], width)
    decreases i
  {
    var head := LittleEndian(items[0], width);
    var tail := Layout(items[1..], width);
    assert Layout(items, width) == head + tail;
    MulStep(width, i);
    if i == 0 {
      assert width * i == 0;
    } else {
      LayoutElement(items[1..], width, i - 1);
      MulStep(width, i - 1);
      var lo := width * (i - 1);
      SliceAfter(head, tail, lo, lo + width);
    }
  }

  /** A slice of the second part of a concatenation, shifted by the length of the first. */
  lemma SliceAfter<T>(a: seq<T>, b: seq<T>, lo: nat, hi: nat)
    requires lo <= hi <= |b|
    ensures (a + b)[|a| + lo .. |a| + hi] == b[lo .. hi]
  {
  }

  /** One more factor adds the multiplicand. */
  lemma MulStep(a: nat, b: nat)
    ensures a * (b + 1) == a + a * b
  {
  }

  /** Element `i` of a slice decodes from its memory image to the element reduced to the width. */
  lemma LayoutDecodes(items: seq<int>, width: nat, i: nat)
    requires i < |items|
    ensures width * (i + 1) <= |Layout(items, width)|
    ensures FromLittleEndian(Layout(items, width)[width * i .. width * (i + 1)]) == items[i] % Pow256(width)
  {
    LayoutElement(items, width, i);
    LittleEndianRoundTrip(items[i], width);
  }

  /** The size of a C `long` on the LP64 platforms the wrapper targets. */
  const LONG_BYTES: nat := 8

  /** The four bytes that extend a 32-bit element to a `long`: copies of its sign bit, the top bit of its last byte. */
  function SignFill(top: bv8): (r: seq<bv8>)
    ensures |r| == 4
    ensures top & 0x80 == 0 ==> r == [0, 0, 0, 0]
    ensures top & 0x80 != 0 ==> r == [0xFF, 0xFF, 0xFF, 0xFF]
  {
    if top & 0x80 == 0 then [0, 0, 0, 0] else [0xFF, 0xFF, 0xFF, 0xFF]
  }

  /**
   * A buffer of 32-bit elements converted to an array of `long`s, each
   * sign-extended from 4 to 8 bytes; a trailing partial element is dropped.
   */
  function WidenToLongs(elements: seq<bv8>): (r: seq<bv8>)
    ensures |r| == LONG_BYTES * (|elements| / 4)
    decreases |elements|
  {
    if |elements| < 4 then [] else elements[..4] + SignFill(elements[3]) + WidenToLongs(elements[4..])
  }

  /** An array of `long`s converted to 32-bit elements: the low 4 bytes of each whole `long`. */
  function NarrowLongs(longs: seq<bv8>): (r: seq<bv8>)
    ensures |r| == 4 * (|longs| / LONG_BYTES)
    decreases |longs|
  {
    if |longs| < LONG_BYTES then [] else longs[..4] + NarrowLongs(longs[LONG_BYTES..])
  }

  /** Narrowing undoes widening: every whole 32-bit element comes back unchanged. */
  lemma {:induction false} NarrowWiden(elements: seq<bv8>)
    ensures NarrowLongs(WidenToLongs(elements)) == elements[..4 * (|elements| / 4)]
    decreases |elements|
  {
    if |elements| >= 4 {
      var w := WidenToLongs(elements);
      var rest := elements[4..];
      assert w == elements[..4] + SignFill(elements[3]) + WidenToLongs(rest);
      assert w[..4] == elements[..4];
      assert w[LONG_BYTES..] == WidenToLongs(rest);
      NarrowWiden(rest);
      assert |rest| / 4 == |elements| / 4 - 1;
      assert elements[..4 * (|elements| / 4)] == elements[..4] + rest[..4 * (|rest| / 4)];
    }
  }

  /** The first `long` of a widened buffer is the first element and its sign fill; the rest widens the remaining elements. */
  lemma WidenHead(elements: seq<bv8>)
    requires |elements| >= 4
    ensures |WidenToLongs(elements)| >= LONG_BYTES
    ensures WidenToLongs(elements)[..4] == elements[..4]
    ensures WidenToLongs(elements)[4..LONG_BYTES] == SignFill(elements[3])
    ensures WidenToLongs(elements)[LONG_BYTES..] == WidenToLongs(elements[4..])
  {
    var head := elements[..4] + SignFill(elements[3]);
    assert WidenToLongs(elements) == head + WidenToLongs(elements[4..]);
  }

  /** Long i of a widened buffer holds element i as its low half. */
  lemma {:induction false} WidenLow(elements: seq<bv8>, i: nat)
    requires i < |elements| / 4
    ensures LONG_BYTES * i + 4 <= |WidenToLongs(elements)| && 4 * i + 4 <= |elements|
    ensures WidenToLongs(elements)[LONG_BYTES * i .. LONG_BYTES * i + 4] == elements[4 * i .. 4 * i + 4]
    decreases i
  {
    WidenHead(elements);
    if i > 0 {
      var rest := elements[4..];
      var w := WidenToLongs(elements);
      var j := i - 1;
      WidenLow(rest, j);
      assert LONG_BYTES * i == LONG_BYTES + LONG_BYTES * j && 4 * i == 4 + 4 * j;
      assert w[LONG_BYTES * i .. LONG_BYTES * i + 4] == w[LONG_BYTES..][LONG_BYTES * j .. LONG_BYTES * j + 4];
      assert elements[4 * i .. 4 * i + 4] == rest[4 * j .. 4 * j + 4];
    }
  }

  /** Long i of a widened buffer holds the sign fill of element i as its high half. */
  lemma {:induction false} WidenHigh(elements: seq<bv8>, i: nat)
    requires i < |elements| / 4
    ensures LONG_BYTES * (i + 1) <= |WidenToLongs(elements)| && 4 * i + 4 <= |elements|
    ensures WidenToLongs(elements)[LONG_BYTES * i + 4 .. LONG_BYTES * (i + 1)] == SignFill(elements[4 * i + 3])
    decreases i
  {
    WidenHead(elements);
    if i > 0 {
      var rest := elements[4..];
      var w := WidenToLongs(elements);
      var j := i - 1;
      WidenHigh(rest, j);
      assert LONG_BYTES * i == LONG_BYTES + LONG_BYTES * j && 4 * i == 4 + 4 * j;
      assert w[LONG_BYTES * i + 4 .. LONG_BYTES * (i + 1)] == w[LONG_BYTES..][LONG_BYTES * j + 4 .. LONG_BYTES * (j + 1)];
      assert elements[4 * i + 3] == rest[4 * j + 3];
    }
  }

  /** Long i of a widened buffer holds element i as its low half and that element's sign fill as its high half. */
  lemma WidenElement(elements: seq<bv8>, i: nat)
    requires i < |elements| / 4
    ensures LONG_BYTES * (i + 1) <= |WidenToLongs(elements)| && 4 * (i + 1) <= |elements|
    ensures WidenToLongs(elements)[LONG_BYTES * i .. LONG_BYTES * i + 4] == elements[4 * i .. 4 * i + 4]
    ensures WidenToLongs(elements)[LONG_BYTES * i + 4 .. LONG_BYTES * (i + 1)] == SignFill(elements[4 * i + 3])
  {
    WidenLow(elements, i);
    WidenHigh(elements, i);
  }

  /** Narrowing a slice of `long`s gives the memory image of the same values as 32-bit elements. */
  lemma {:induction false} NarrowLayout(items: seq<int>)
    ensures NarrowLongs(Layout(items, LONG_BYTES)) == Layout(items, 4)
    decreases |items|
  {
    if items != [] {
      var longs := Layout(items, LONG_BYTES);
      var head := LittleEndian(items[0], LONG_BYTES);
      assert longs == head + Layout(items[1..], LONG_BYTES);
      assert longs[..4] == head[..4];
      LittleEndianPrefix(items[0], LONG_BYTES, 4);
      assert longs[LONG_BYTES..] == Layout(items[1..], LONG_BYTES);
      NarrowLayout(items[1..]);
    }
  }

  /** The elements 1 and 2 as `long`s. */
  lemma WidenOneTwo()
    ensures WidenToLongs([1, 0, 0, 0, 2, 0, 0, 0]) == [1, 0, 0, 0, 0, 0, 0, 0, 2, 0, 0, 0, 0, 0, 0, 0]
  {
    var bytes: seq<bv8> := [1, 0, 0, 0, 2, 0, 0, 0];
    assert WidenToLongs(bytes[4..]) == [2, 0, 0, 0, 0, 0, 0, 0];
  }

  /** The memory image of the 32-bit slice [1, 2]. */
  lemma LayoutOneTwo()
    ensures Layout([1, 2], 4) == [1, 0, 0, 0, 2, 0, 0, 0]
  {
    var zeros := LittleEndian(0, 3);
    assert LittleEndian(0, 1) == [0];
    assert LittleEndian(0, 2) == [0, 0];
    assert zeros == [0, 0, 0];
    assert LittleEndian(1, 4) == [1] + zeros;
    assert LittleEndian(2, 4) == [2] + zeros;
  }

  /** Reading two `long`s from that image: the low half of the first, then four bytes from past its end. */
  lemma NarrowPastOneTwo(beyond: seq<bv8>)
    requires |beyond| >= 8
    ensures NarrowLongs(([1, 0, 0, 0, 2, 0, 0, 0] + beyond)[..16]) == [1, 0, 0, 0] + beyond[..4]
  {
    var memory := ([1, 0, 0, 0, 2, 0, 0, 0] + beyond)[..16];
    assert memory[8..] == beyond[..8];
    assert NarrowLongs(memory[8..]) == beyond[..4];
  }
}
