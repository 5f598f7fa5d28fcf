/**
 * Pixels of 8-bit OpenCV matrices (CV_8U channels) and the per-element
 * operations the effect compositor relies on: saturating addition
 * (`Core.add`), GRAY -> RGBA conversion (`Imgproc.cvtColor`) and the
 * inclusive range test (`Core.inRange`).
 */
module Pixels {

  /** One unsigned 8-bit channel value. */
  type byte = x: int | 0 <= x < 256

  const MaxByte: byte := 255

  /** A 4-channel pixel of an RGBA camera frame; channel order R, G, B, A. */
  datatype Pixel = Pixel(r: byte, g: byte, b: byte, a: byte)

  /** Scalar(0, 0, 0, 0): what `Mat.zeros` fills a matrix with. */
  const Transparent := Pixel(0, 0, 0, 0)
  /** Scalar(0, 0, 0, 255): the opaque black background. */
  const Black := Pixel(0, 0, 0, 255)
  /** Scalar(0, 255, 0, 255): the opaque green accent colour of edges. */
  const Green := Pixel(0, 255, 0, 255)
  /** Scalar(255, 255, 255, 255): both bounds of the edge `inRange` test. */
  const White := Pixel(255, 255, 255, 255)

  /** OpenCV's `saturate_cast<uchar>(x + y)`: the sum, clamped at 255. */
  function AddSat(x: byte, y: byte): (s: byte)
    ensures x <= s && y <= s
    ensures x + y <= MaxByte ==> s == x + y
    ensures MaxByte < x + y ==> s == MaxByte
  {
    if x + y <= MaxByte then x + y else MaxByte
  }

  /**
   * `Core.add` on one pair of 4-channel pixels: each channel is
   * min(255, p + q), so no channel wraps round or decreases, and a zero
   * channel of `q` leaves `p`'s alone.
   */
  function PixelAdd(p: Pixel, q: Pixel): (s: Pixel)
    ensures s.r == Min(MaxByte, p.r + q.r) && s.g == Min(MaxByte, p.g + q.g)
    ensures s.b == Min(MaxByte, p.b + q.b) && s.a == Min(MaxByte, p.a + q.a)
    ensures p.r <= s.r && p.g <= s.g && p.b <= s.b && p.a <= s.a
    ensures (q.r == 0 ==> s.r == p.r) && (q.g == 0 ==> s.g == p.g)
    ensures (q.b == 0 ==> s.b == p.b) && (q.a == 0 ==> s.a == p.a)
  {
    Pixel(AddSat(p.r, q.r), AddSat(p.g, q.g), AddSat(p.b, q.b), AddSat(p.a, q.a))
  }

  /** Adding a transparent (all-zero) pixel changes nothing. */
  lemma PixelAddZero(p: Pixel)
    ensures PixelAdd(p, Transparent) == p
  {
  }

  function Min(x: int, y: int): (m: int)
  {
    if x <= y then x else y
  }

  /** `COLOR_GRAY2RGBA`: the gray value is copied to R, G and B; alpha is opaque. */
  function GrayToRgba(v: byte): (p: Pixel)
  {
    Pixel(v, v, v, MaxByte)
  }

  /**
   * `Core.inRange` on one pixel: every channel lies within its inclusive
   * bounds. With equal bounds the test picks out exactly that one pixel.
   */
  function InRange(p: Pixel, lo: Pixel, hi: Pixel): (inside: bool)
    ensures lo == hi ==> (inside <==> p == lo)
  {
    lo.r <= p.r <= hi.r && lo.g <= p.g <= hi.g &&
    lo.b <= p.b <= hi.b && lo.a <= p.a <= hi.a
  }

  /**
   * Whether an edge-image value is picked by the compositor's mask: the
   * value is widened to RGBA and tested against [255, 255] on all four
   * channels. Exactly the value 255 is picked, so any weaker edge response
   * is not highlighted.
   */
  predicate IsEdge(v: byte)
    ensures IsEdge(v) <==> v == MaxByte
  {
    InRange(GrayToRgba(v), White, White)
  }
}
