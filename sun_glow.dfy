/**
 * The sun billboard image `createSunBillboardTexture` fills (src/texture.cpp):
 * 900 by 900 RGBA pixels around the centre (450, 450), opaque inside radius
 * 150, fading out to radius 450, transparent beyond. Distances are compared
 * squared, on integers. The fade-zone alpha (a power of the relative
 * distance) is a parameter: any value in [0, 1] for each squared distance.
 */
module SunGlow {
  import opened Gl
  import Flip

  const Size: int := 900
  const Center: int := 450
  const InnerSq: int := 150 * 150
  const OuterSq: int := 450 * 450
  const Red: Byte := 255
  const Blue: Byte := 50
  const StartGreen: Byte := 110

  /** The buffer holds `Size * Size` pixels of four bytes. */
  const Bytes: int := Size * Size * 4

  type Fraction = r: real | 0.0 <= r <= 1.0

  /** Which region of the billboard a pixel lies in. */
  datatype Zone = Inner | Fade | Outer

  function DistSq(x: int, y: int): int {
    (x - Center) * (x - Center) + (y - Center) * (y - Center)
  }

  function ZoneOf(x: int, y: int): Zone {
    var d := DistSq(x, y);
    if d < InnerSq then Inner else if d < OuterSq then Fade else Outer
  }

  /** Pixel number `k` in row-major order is (k % Size, k / Size). */
  function ZoneAt(k: int): Zone {
    ZoneOf(k % Size, k / Size)
  }

  function DistAt(k: int): int {
    DistSq(k % Size, k / Size)
  }

  /** The alpha byte: 255 * alpha truncated, alpha being 1 inside, 0 outside. */
  function AlphaByte(z: Zone, a: Fraction): (b: Byte)
    ensures z == Inner ==> b == 255
    ensures z == Outer ==> b == 0
  {
    match z
    case Inner => 255
    case Outer => 0
    case Fade => (255.0 * a).Floor
  }

  /** The green a fade-zone pixel sets: max(200 * alpha, 120), truncated. */
  function FadeGreen(a: Fraction): (g: Byte)
    ensures 120 <= g <= 200
  {
    (if 200.0 * a < 120.0 then 120.0 else 200.0 * a).Floor
  }

  /** The green written for pixel `k`: `G` keeps the value the most recent
      fade-zone pixel gave it, 110 before the first one. */
  function GreenAt(fade: int -> Fraction, k: nat): Byte
    decreases k
  {
    if ZoneAt(k) == Fade then FadeGreen(fade(DistAt(k)))
    else if k == 0 then StartGreen
    else GreenAt(fade, k - 1)
  }

  /** The value of `G` when the loop reaches pixel `k`. */
  function GreenBefore(fade: int -> Fraction, k: nat): Byte {
    if k == 0 then StartGreen else GreenAt(fade, k - 1)
  }

  /** Byte `i` of the filled buffer. */
  function BillboardByte(fade: int -> Fraction, i: nat): Byte {
    var k := i / 4;
    var c := i % 4;
    if c == 0 then Red
    else if c == 1 then GreenAt(fade, k)
    else if c == 2 then Blue
    else AlphaByte(ZoneAt(k), fade(DistAt(k)))
  }

  /** The whole buffer. */
  function Billboard(fade: int -> Fraction): (r: seq<Byte>)
    ensures |r| == Bytes
  {
    seq(Bytes, i requires 0 <= i < Bytes => BillboardByte(fade, i))
  }

  // ----- what the image looks like ----------------------------------------

  /** Pixel (x, y) occupies bytes 4k to 4k+3, k = y * Size + x. */
  lemma PixelNumber(x: int, y: int)
    requires 0 <= x < Size && 0 <= y < Size
    ensures 0 <= y * Size + x < Size * Size
    ensures (y * Size + x) % Size == x && (y * Size + x) / Size == y
  {
    Flip.DivModUnique(y * Size + x, Size, y, x);
  }

  /** Every pixel is red 255 and blue 50; it is opaque inside radius 150
      and fully transparent at radius 450 and beyond. */
  lemma BillboardColours(fade: int -> Fraction, x: int, y: int)
    requires 0 <= x < Size && 0 <= y < Size
    ensures var k := y * Size + x;
      && 0 <= 4 * k && 4 * k + 3 < Bytes
      && Billboard(fade)[4 * k] == Red
      && Billboard(fade)[4 * k + 2] == Blue
      && (DistSq(x, y) < InnerSq ==> Billboard(fade)[4 * k + 3] == 255)
      && (OuterSq <= DistSq(x, y) ==> Billboard(fade)[4 * k + 3] == 0)
  {
    PixelNumber(x, y);
    var k := y * Size + x;
    assert (4 * k + 3) / 4 == k && (4 * k + 3) % 4 == 3;
    assert (4 * k + 2) / 4 == k && (4 * k + 2) % 4 == 2;
    assert (4 * k) / 4 == k && (4 * k) % 4 == 0;
  }

  /** Before the first fade-zone pixel, green is 110. */
  lemma {:induction false} GreenBeforeFirstFade(fade: int -> Fraction, k: nat)
    requires forall j :: 0 <= j <= k ==> ZoneAt(j) != Fade
    ensures GreenAt(fade, k) == StartGreen
  {
    if k > 0 {
      GreenBeforeFirstFade(fade, k - 1);
    }
  }

  /** After a fade-zone pixel `j`, green is what `j` set until the next one. */
  lemma {:induction false} GreenFromLatestFade(fade: int -> Fraction, j: nat, k: nat)
    requires j <= k && ZoneAt(j) == Fade
    requires forall m :: j < m <= k ==> ZoneAt(m) != Fade
    ensures GreenAt(fade, k) == FadeGreen(fade(DistAt(j)))
  {
    if k > j {
      GreenFromLatestFade(fade, j, k - 1);
    }
  }

  /** Green is always 110 or between 120 and 200. */
  lemma {:induction false} GreenRange(fade: int -> Fraction, k: nat)
    ensures GreenAt(fade, k) == StartGreen || 120 <= GreenAt(fade, k) <= 200
  {
    if ZoneAt(k) != Fade && k > 0 {
      GreenRange(fade, k - 1);
    }
  }

  lemma SquareAtLeast(a: int, b: int)
    requires b >= 0 && (a <= -b || b <= a)
    ensures a * a >= b * b
  {
    if a <= -b {
      Flip.MulSub(-a, b, -a);
      Flip.MulNonneg(-a - b, -a);
      Flip.MulSub(-a, b, b);
      Flip.MulNonneg(-a - b, b);
    } else {
      Flip.MulSub(a, b, a);
      Flip.MulNonneg(a - b, a);
      Flip.MulSub(a, b, b);
      Flip.MulNonneg(a - b, b);
    }
  }

  /** The first fade-zone pixel in row-major order is (421, 1): every earlier
      pixel keeps green 110, the glow's first row is entirely transparent. */
  lemma FirstFadePixel(fade: int -> Fraction)
    ensures ZoneAt(Size + 421) == Fade
    ensures forall k :: 0 <= k < Size + 421 ==> ZoneAt(k) != Fade
    ensures forall k :: 0 <= k < Size + 421 ==> GreenAt(fade, k) == StartGreen
  {
    PixelNumber(421, 1);
    assert DistSq(421, 1) == 202442;
    forall k | 0 <= k < Size + 421
      ensures ZoneAt(k) != Fade
    {
      var x, y := k % Size, k / Size;
      if k < Size {
        Flip.DivModUnique(k, Size, 0, k);
        assert (y - Center) * (y - Center) == OuterSq;
        SquareAtLeast(x - Center, 0);
      } else {
        Flip.DivModUnique(k, Size, 1, k - Size);
        assert (y - Center) * (y - Center) == 449 * 449;
        SquareAtLeast(x - Center, 30);
      }
    }
    forall k | 0 <= k < Size + 421
      ensures GreenAt(fade, k) == StartGreen
    {
      GreenBeforeFirstFade(fade, k);
    }
  }
}
