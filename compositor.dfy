/**
 * The "hacker vision" effect: an edge image becomes an opaque black frame
 * with the edges in green, and every fourth row receives a dark-green
 * scanline tint added with saturation.
 *
 * Matrices are `array2`s indexed [row, column]. Each OpenCV call the
 * effect makes (`setTo`, `cvtColor`, `inRange`, `Mat.zeros`, `submat` +
 * `setTo`, `Core.add`) is a method whose contract gives its effect on
 * every element; the effect methods are proved against `Composite`.
 */
module Compositor {
  import opened Pixels

  /** Every `ScanlineStep`-th row, starting at row 0, is a scanline. */
  const ScanlineStep := 4
  /** Scalar(0, 80, 0, 30): the tint written into scanline rows of the overlay. */
  const ScanlineTint := Pixel(0, 80, 0, 30)

  /**
   * Kotlin's `start until end step 4`: start, start + 4, ... while below
   * `end`, in increasing order (empty when start >= end).
   */
  function StepFour(start: int, end: int): (ys: seq<int>)
    ensures forall y :: y in ys <==> start <= y < end && (y - start) % ScanlineStep == 0
    ensures forall i, j :: 0 <= i < j < |ys| ==> ys[i] < ys[j]
    decreases end - start
  {
    if end <= start then []
    else
      var rest := StepFour(start + ScanlineStep, end);
      assert forall k :: 0 <= k < |rest| ==> rest[k] in rest && start < rest[k];
      [start] + rest
  }

  /** A frame of `rows` rows has one scanline per started block of four rows. */
  lemma {:induction false} ScanlineCount(start: int, end: int)
    ensures |StepFour(start, end)| ==
      if start < end then (end - start + 3) / 4 else 0
    decreases end - start
  {
    if start < end {
      ScanlineCount(start + ScanlineStep, end);
    }
  }

  /**
   * The colour of one output pixel, given the edge value at that pixel and
   * its row: green on an edge (value 255), black elsewhere, and on a
   * scanline row the tint added with saturation. Red and blue stay 0 and
   * the pixel is opaque; a black scanline pixel becomes (0, 80, 0, 255)
   * and a green one stays green.
   */
  function Composite(edge: byte, y: nat): (p: Pixel)
    ensures p.r == 0 && p.b == 0 && p.a == MaxByte
    ensures y % ScanlineStep != 0 ==> (p == Green <==> edge == MaxByte) && (p == Black <==> edge != MaxByte)
    ensures y % ScanlineStep == 0 ==> p == if edge == MaxByte then Green else Pixel(0, 80, 0, 255)
  {
    var base := if IsEdge(edge) then Green else Black;
    if y % ScanlineStep == 0 then PixelAdd(base, ScanlineTint) else base
  }

  /** Both matrices have the same number of rows and columns. */
  predicate SameSize<S, T>(a: array2<S>, b: array2<T>)
  {
    a.Length0 == b.Length0 && a.Length1 == b.Length1
  }

  /** `m.setTo(color)`: every element becomes `color`. */
  method SetTo(m: array2<Pixel>, color: Pixel)
    modifies m
    ensures forall y, x :: 0 <= y < m.Length0 && 0 <= x < m.Length1 ==> m[y, x] == color
  {
    var y := 0;
    while y < m.Length0
      invariant 0 <= y <= m.Length0
      invariant forall i, j :: 0 <= i < y && 0 <= j < m.Length1 ==> m[i, j] == color
    {
      FillRow(m, y, color);
      y := y + 1;
    }
  }

  /** `m.submat(y, y + 1, 0, cols).setTo(color)`: row `y` becomes `color`, nothing else changes. */
  method FillRow(m: array2<Pixel>, y: nat, color: Pixel)
    requires y < m.Length0
    modifies m
    ensures forall j :: 0 <= j < m.Length1 ==> m[y, j] == color
    ensures forall i, j :: 0 <= i < m.Length0 && 0 <= j < m.Length1 && i != y ==> m[i, j] == old(m[i, j])
  {
    var x := 0;
    while x < m.Length1
      invariant 0 <= x <= m.Length1
      invariant forall j :: 0 <= j < x ==> m[y, j] == color
      invariant forall i, j :: 0 <= i < m.Length0 && 0 <= j < m.Length1 && (i != y || x <= j) ==> m[i, j] == old(m[i, j])
    {
      m[y, x] := color;
      x := x + 1;
    }
  }

  /** `m.setTo(color, mask)`: elements whose mask value is non-zero become `color`, the others keep theirs. */
  method SetToMasked(m: array2<Pixel>, color: Pixel, mask: array2<byte>)
    requires SameSize(m, mask)
    modifies m
    ensures forall y, x :: 0 <= y < m.Length0 && 0 <= x < m.Length1 ==>
      m[y, x] == if mask[y, x] != 0 then color else old(m[y, x])
  {
    var y := 0;
    while y < m.Length0
      invariant 0 <= y <= m.Length0
      invariant forall i, j :: 0 <= i < y && 0 <= j < m.Length1 ==>
        m[i, j] == if mask[i, j] != 0 then color else old(m[i, j])
      invariant forall i, j :: y <= i < m.Length0 && 0 <= j < m.Length1 ==> m[i, j] == old(m[i, j])
    {
      var x := 0;
      while x < m.Length1
        invariant 0 <= x <= m.Length1
        invariant forall i, j :: 0 <= i < y && 0 <= j < m.Length1 ==>
          m[i, j] == if mask[i, j] != 0 then color else old(m[i, j])
        invariant forall j :: 0 <= j < x ==> m[y, j] == if mask[y, j] != 0 then color else old(m[y, j])
        invariant forall i, j :: y <= i < m.Length0 && 0 <= j < m.Length1 && (i != y || x <= j) ==> m[i, j] == old(m[i, j])
      {
        if mask[y, x] != 0 {
          m[y, x] := color;
        }
        x := x + 1;
      }
      y := y + 1;
    }
  }

  /** `cvtColor(gray, rgba, COLOR_GRAY2RGBA)` into a new matrix of the same size. */
  method GrayToRgbaMat(gray: array2<byte>) returns (rgba: array2<Pixel>)
    ensures fresh(rgba) && SameSize(rgba, gray)
    ensures forall y, x :: 0 <= y < gray.Length0 && 0 <= x < gray.Length1 ==> rgba[y, x] == GrayToRgba(gray[y, x])
  {
    rgba := new Pixel[gray.Length0, gray.Length1]((i, j) reads gray =>
      if 0 <= i < gray.Length0 && 0 <= j < gray.Length1 then GrayToRgba(gray[i, j]) else Transparent);
  }

  /** `Core.inRange(src, lo, hi, mask)`: a new single-channel mask, 255 where the pixel lies in [lo, hi], else 0. */
  method InRangeMat(src: array2<Pixel>, lo: Pixel, hi: Pixel) returns (mask: array2<byte>)
    ensures fresh(mask) && SameSize(mask, src)
    ensures forall y, x :: 0 <= y < src.Length0 && 0 <= x < src.Length1 ==>
      mask[y, x] == if InRange(src[y, x], lo, hi) then MaxByte else 0
  {
    mask := new byte[src.Length0, src.Length1]((i, j) reads src =>
      if 0 <= i < src.Length0 && 0 <= j < src.Length1 && InRange(src[i, j], lo, hi) then MaxByte else 0);
  }

  /** `Mat.zeros(rows, cols, CV_8UC4)`. */
  method Zeros(rows: nat, cols: nat) returns (m: array2<Pixel>)
    ensures fresh(m) && m.Length0 == rows && m.Length1 == cols
    ensures forall y, x :: 0 <= y < rows && 0 <= x < cols ==> m[y, x] == Transparent
  {
    m := new Pixel[rows, cols]((i, j) => Transparent);
  }

  /** `Core.add(dst, other, dst)`: every element of `dst` gets the matching element of `other` added with saturation. */
  method AddInPlace(dst: array2<Pixel>, other: array2<Pixel>)
    requires SameSize(dst, other)
    modifies dst
    ensures forall y, x :: 0 <= y < dst.Length0 && 0 <= x < dst.Length1 ==>
      dst[y, x] == PixelAdd(old(dst[y, x]), old(other[y, x]))
  {
    var y := 0;
    while y < dst.Length0
      invariant 0 <= y <= dst.Length0
      invariant forall i, j :: 0 <= i < y && 0 <= j < dst.Length1 ==>
        dst[i, j] == PixelAdd(old(dst[i, j]), old(other[i, j]))
      invariant forall i, j :: y <= i < dst.Length0 && 0 <= j < dst.Length1 ==>
        dst[i, j] == old(dst[i, j]) && other[i, j] == old(other[i, j])
    {
      var x := 0;
      while x < dst.Length1
        invariant 0 <= x <= dst.Length1
        invariant forall i, j :: 0 <= i < y && 0 <= j < dst.Length1 ==>
          dst[i, j] == PixelAdd(old(dst[i, j]), old(other[i, j]))
        invariant forall j :: 0 <= j < x ==> dst[y, j] == PixelAdd(old(dst[y, j]), old(other[y, j]))
        invariant forall i, j :: y <= i < dst.Length0 && 0 <= j < dst.Length1 && (i != y || x <= j) ==>
          dst[i, j] == old(dst[i, j]) && other[i, j] == old(other[i, j])
      {
        dst[y, x] := PixelAdd(dst[y, x], other[y, x]);
        x := x + 1;
      }
      y := y + 1;
    }
  }

  /**
   * `addScanlineEffect`: builds a zero overlay of the display's size, writes
   * the tint into the rows of `0 until rows step 4`, and adds the overlay to
   * the display. Scanline rows get the tint across every column; every
   * other row is left as it was.
   */
  method AddScanlineEffect(display: array2<Pixel>)
    modifies display
    ensures forall y, x :: 0 <= y < display.Length0 && 0 <= x < display.Length1 ==>
      display[y, x] == if y % ScanlineStep == 0 then PixelAdd(old(display[y, x]), ScanlineTint) else old(display[y, x])
  {
    var rows := display.Length0;
    var scanline := Zeros(rows, display.Length1);
    var ys := StepFour(0, rows);
    var k := 0;
    while k < |ys|
      modifies scanline
      invariant 0 <= k <= |ys|
      invariant forall i, j :: 0 <= i < rows && 0 <= j < display.Length1 ==>
        scanline[i, j] == if i in ys[..k] then ScanlineTint else Transparent
    {
      var y := ys[k];
      assert y in ys;
      // Always true: the progression stops below `rows`.
      if y < rows {
        FillRow(scanline, y, ScanlineTint);
      }
      assert ys[..k + 1] == ys[..k] + [y];
      k := k + 1;
    }
    assert ys[..k] == ys;
    forall i, j | 0 <= i < rows && 0 <= j < display.Length1
      ensures scanline[i, j] == if i % ScanlineStep == 0 then ScanlineTint else Transparent
    {
    }
    forall p: Pixel ensures PixelAdd(p, Transparent) == p {
      PixelAddZero(p);
    }
    AddInPlace(display, scanline);
  }

  /**
   * `createHackerVisionEffect`: fill the display with opaque black, paint
   * green where the edge image, widened to RGBA, equals (255, 255, 255, 255),
   * then add the scanlines. Afterwards every pixel is `Composite` of its
   * edge value and row.
   */
  method CreateHackerVisionEffect(display: array2<Pixel>, canny: array2<byte>)
    requires SameSize(display, canny)
    modifies display
    ensures forall y, x :: 0 <= y < display.Length0 && 0 <= x < display.Length1 ==>
      display[y, x] == Composite(canny[y, x], y)
  {
    SetTo(display, Black);
    var cannyRgba := GrayToRgbaMat(canny);
    var mask := InRangeMat(cannyRgba, White, White);
    SetToMasked(display, Green, mask);
    AddScanlineEffect(display);
  }
}
