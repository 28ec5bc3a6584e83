/**
  The size arithmetic of nvidia_drm_dumb_create, in the widths it is done in: pitch and
  height * pitch are 32-bit unsigned, the page round-up is 64-bit.
*/
module DumbBuffer {
  import opened CIntegers

  const PAGE := 4096

  /** roundup(x, y) on 32-bit unsigned values. */
  function Roundup32(x: U32, y: U32): U32
    requires y > 0
  {
    ToU32(ToU32(x + (y - 1)) / y * y)
  }

  function RoundupPage(x: nat): nat {
    (x + (PAGE - 1)) / PAGE * PAGE
  }

  /** (bpp + 7) >> 3. */
  function BytesPerPixel(bpp: U32): U32 {
    ToU32(bpp + 7) / 8
  }

  function Pitch(width: U32, bpp: U32, alignment: U32): U32
    requires alignment > 0
  {
    Roundup32(ToU32(width * BytesPerPixel(bpp)), alignment)
  }

  function Size(height: U32, pitch: U32): nat {
    RoundupPage(ToU32(height * pitch))
  }

  // ----- Multiples -----

  /** r is the least multiple of y that is at least x. */
  ghost predicate LeastMultiple(r: nat, y: nat, x: int)
    requires y > 0
  {
    && x <= r
    && (exists k: nat :: r == k * y)
    && forall k: nat :: x <= k * y ==> r <= k * y
  }

  lemma {:induction false} ProductNat(a: nat, b: nat)
    ensures a * b >= 0
  {
    if a > 0 {
      ProductNat(a - 1, b);
      assert a * b == (a - 1) * b + b;
    }
  }

  lemma MonotoneTimes(a: nat, b: nat, y: nat)
    requires a <= b
    ensures a * y <= b * y
  {
    ProductNat(b - a, y);
    assert b * y == a * y + (b - a) * y;
  }

  lemma RowOrder(y1: nat, y2: nat, pitch: nat)
    requires y1 < y2
    ensures y1 * pitch + pitch <= y2 * pitch
  {
    MonotoneTimes(y1 + 1, y2, pitch);
    assert (y1 + 1) * pitch == y1 * pitch + pitch;
  }

  lemma RoundupIsLeast(x: nat, y: nat)
    requires y > 0
    ensures LeastMultiple((x + (y - 1)) / y * y, y, x)
    ensures (x + (y - 1)) / y * y <= x + (y - 1)
  {
    var k := (x + (y - 1)) / y;
    DivisionBounds(x + (y - 1), y);
    forall j: nat | x <= j * y ensures k * y <= j * y {
      if j >= k {
        MonotoneTimes(k, j, y);
      } else {
        RowOrder(j, k, y);
      }
    }
  }

  lemma DivisionBounds(n: nat, y: nat)
    requires y > 0
    ensures n / y * y <= n < n / y * y + y
  {
    assert n == y * (n / y) + n % y;
  }

  // ----- Pitch and size -----

  predicate PitchFits(width: U32, bpp: U32, alignment: U32) {
    width * BytesPerPixel(bpp) + alignment - 1 < TWO_32
  }

  predicate SizeFits(height: U32, pitch: U32) {
    height * pitch < TWO_32
  }

  lemma Unwrapped(x: nat)
    requires x < TWO_32
    ensures ToU32(x) == x
  {
  }

  /** n / y * y, which never exceeds n and comes within y of it. */
  function Down(n: nat, y: nat): (r: nat)
    requires y > 0
    ensures r <= n < r + y
  {
    DivisionBounds(n, y);
    n / y * y
  }

  lemma Roundup32Is(x: U32, y: U32)
    requires y > 0
    ensures Roundup32(x, y) == Down(ToU32(x + (y - 1)), y)
  {
    Unwrapped(Down(ToU32(x + (y - 1)), y));
  }

  /** Without wrap-around, the 32-bit round-up is the round-up. */
  lemma Roundup32Least(x: U32, y: U32)
    requires y > 0 && x + (y - 1) < TWO_32
    ensures LeastMultiple(Roundup32(x, y), y, x)
  {
    Roundup32Is(x, y);
    Unwrapped(x + (y - 1));
    RoundupIsLeast(x, y);
  }

  /** With it, the result is too small. */
  lemma Roundup32Wraps(x: U32, y: U32)
    requires y > 0 && x + (y - 1) >= TWO_32
    ensures Roundup32(x, y) < x
  {
    Roundup32Is(x, y);
    assert ToU32(x + (y - 1)) == x + (y - 1) - TWO_32;
  }

  /** Rounding up a row of any length, in 32 bits. */
  lemma RoundupRow(row: nat, y: U32)
    requires y > 0
    ensures Roundup32(ToU32(row), y) >= row <==> row + y - 1 < TWO_32
    ensures row + y - 1 < TWO_32 ==> LeastMultiple(Roundup32(ToU32(row), y), y, row)
  {
    if row < TWO_32 {
      Unwrapped(row);
      if row + (y - 1) < TWO_32 {
        Roundup32Least(row, y);
      } else {
        Roundup32Wraps(row, y);
      }
    }
  }

  /** pitch is the least multiple of the alignment that holds a row; and it holds a row exactly when nothing wraps. */
  lemma PitchHoldsRow(width: U32, bpp: U32, alignment: U32)
    requires alignment > 0
    ensures Pitch(width, bpp, alignment) >= width * BytesPerPixel(bpp) <==> PitchFits(width, bpp, alignment)
    ensures PitchFits(width, bpp, alignment) ==>
              LeastMultiple(Pitch(width, bpp, alignment), alignment, width * BytesPerPixel(bpp))
  {
    ProductNat(width, BytesPerPixel(bpp));
    RoundupRow(width * BytesPerPixel(bpp), alignment);
  }

  /** The page round-up of any product, taken in 32 bits first. */
  lemma RoundupBytes(bytes: nat)
    ensures RoundupPage(ToU32(bytes)) >= bytes <==> bytes < TWO_32
    ensures bytes < TWO_32 ==> LeastMultiple(RoundupPage(ToU32(bytes)), PAGE, bytes)
    ensures RoundupPage(ToU32(bytes)) % PAGE == 0
  {
    RoundupIsLeast(ToU32(bytes), PAGE);
  }

  /** size is the least page multiple that holds all rows; and it holds them exactly when the product fits. */
  lemma SizeHoldsRows(height: U32, pitch: U32)
    ensures Size(height, pitch) >= height * pitch <==> SizeFits(height, pitch)
    ensures SizeFits(height, pitch) ==> LeastMultiple(Size(height, pitch), PAGE, height * pitch)
    ensures Size(height, pitch) % PAGE == 0
  {
    ProductNat(height, pitch);
    RoundupBytes(height * pitch);
  }

  /**
    The code, statement by statement: each of the two numbers is large enough exactly when its
    32-bit arithmetic does not wrap, and then it is the least that is.
  */
  method DumbSizes(width: U32, height: U32, bpp: U32, alignment: U32) returns (pitch: U32, size: nat)
    requires alignment > 0
    ensures pitch == Pitch(width, bpp, alignment) && size == Size(height, pitch)
    ensures pitch >= width * BytesPerPixel(bpp) <==> PitchFits(width, bpp, alignment)
    ensures PitchFits(width, bpp, alignment) ==> LeastMultiple(pitch, alignment, width * BytesPerPixel(bpp))
    ensures size >= height * pitch <==> SizeFits(height, pitch)
    ensures SizeFits(height, pitch) ==> LeastMultiple(size, PAGE, height * pitch)
    ensures size % PAGE == 0
  {
    pitch := Roundup32(ToU32(width * (ToU32(bpp + 7) / 8)), alignment);
    size := ToU32(height * pitch);
    size := RoundupPage(size);
    PitchHoldsRow(width, bpp, alignment);
    SizeHoldsRows(height, pitch);
  }

  /** Even without its padding to the alignment the buffer needs less than 2^32 bytes. */
  predicate UnpaddedFits(width: U32, height: U32, bpp: U32) {
    0 < width && 0 < height && 0 < bpp && width * BytesPerPixel(bpp) * height < TWO_32
  }

  /**
    A modest request that wraps: the padded rows take 2^32 + 256 bytes, the object gets one page.
    A check of the unpadded size does not notice.
  */
  lemma WrapsWhenPadded()
    ensures var width, height, bpp, alignment := 1, 0x100_0001, 8, 256;
            && UnpaddedFits(width, height, bpp) && PitchFits(width, bpp, alignment)
            && Pitch(width, bpp, alignment) == 256
            && !SizeFits(height, 256) && Size(height, 256) == PAGE
  {
    assert BytesPerPixel(8) == 1;
    assert ToU32(1 + 255) == 256;
    assert ToU32(0x100_0001 * 256) == 256;
  }

  /** The bytes of a pixel are the fewest that hold its bits, exactly when bpp + 7 does not wrap. */
  lemma BytesHoldBits(bpp: U32)
    ensures BytesPerPixel(bpp) * 8 >= bpp <==> bpp + 7 < TWO_32
    ensures bpp + 7 < TWO_32 ==> BytesPerPixel(bpp) * 8 < bpp + 8
  {
    if bpp + 7 < TWO_32 {
      Unwrapped(bpp + 7);
    } else {
      assert ToU32(bpp + 7) == bpp + 7 - TWO_32;
    }
  }

  // ----- Pixels -----

  /** First byte of pixel (x, y). */
  function Offset(x: nat, y: nat, cpp: nat, pitch: nat): nat {
    y * pitch + x * cpp
  }

  /** A pixel of a row stays within the row's pitch. */
  lemma PixelInRow(x: nat, width: nat, cpp: nat, pitch: nat)
    requires x < width && width * cpp <= pitch
    ensures x * cpp + cpp <= pitch
  {
    MonotoneTimes(x + 1, width, cpp);
    assert (x + 1) * cpp == x * cpp + cpp;
  }

  /** Every pixel lies inside the buffer. */
  lemma PixelInside(width: U32, height: U32, bpp: U32, alignment: U32, x: nat, y: nat)
    requires alignment > 0 && x < width && y < height
    requires PitchFits(width, bpp, alignment) && SizeFits(height, Pitch(width, bpp, alignment))
    ensures var pitch := Pitch(width, bpp, alignment);
            Offset(x, y, BytesPerPixel(bpp), pitch) + BytesPerPixel(bpp) <= Size(height, pitch)
  {
    var pitch := Pitch(width, bpp, alignment);
    PitchHoldsRow(width, bpp, alignment);
    SizeHoldsRows(height, pitch);
    PixelInRow(x, width, BytesPerPixel(bpp), pitch);
    RowOrder(y, height, pitch);
  }

  lemma WholeBytes(bpp: U32)
    requires bpp % 8 == 0
    ensures BytesPerPixel(bpp) == bpp / 8
  {
    assert bpp + 7 < TWO_32;
  }

  lemma OffsetsApart(x1: nat, y1: nat, x2: nat, y2: nat, cpp: nat, pitch: nat)
    requires x1 * cpp + cpp <= pitch && x2 * cpp + cpp <= pitch && (y1 < y2 || (y1 == y2 && x1 < x2))
    ensures Offset(x1, y1, cpp, pitch) + cpp <= Offset(x2, y2, cpp, pitch)
  {
    if y1 < y2 {
      RowOrder(y1, y2, pitch);
    } else {
      RowOrder(x1, x2, cpp);
    }
  }

  /** Different pixels of whole bytes do not share a byte. */
  lemma PixelsDisjoint(width: U32, bpp: U32, alignment: U32, x1: nat, y1: nat, x2: nat, y2: nat)
    requires alignment > 0 && x1 < width && x2 < width && (x1, y1) != (x2, y2)
    requires bpp % 8 == 0 && PitchFits(width, bpp, alignment)
    ensures BytesPerPixel(bpp) == bpp / 8
    ensures var pitch, cpp := Pitch(width, bpp, alignment), bpp / 8;
            var a, b := Offset(x1, y1, cpp, pitch), Offset(x2, y2, cpp, pitch);
            a + cpp <= b || b + cpp <= a
  {
    var pitch, cpp := Pitch(width, bpp, alignment), BytesPerPixel(bpp);
    WholeBytes(bpp);
    PitchHoldsRow(width, bpp, alignment);
    PixelInRow(x1, width, cpp, pitch);
    PixelInRow(x2, width, cpp, pitch);
    if y1 < y2 || (y1 == y2 && x1 < x2) {
      OffsetsApart(x1, y1, x2, y2, cpp, pitch);
    } else {
      OffsetsApart(x2, y2, x1, y1, cpp, pitch);
    }
  }
}
