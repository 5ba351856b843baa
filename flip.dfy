/**
 * The vertical flip `uploadImage` applies to an RGBA8 buffer (src/texture.cpp):
 * row y of a `width` by `height` image trades places with row `height-1-y`.
 * It is stated on buffer indices: `Mirror` maps a byte's index to the index
 * it is exchanged with, and `Flipped` is the buffer read through `Mirror`.
 */
module Flip {
  import opened Gl

  /** The index of channel `c` of pixel (x, y) in a `w` by `h` RGBA buffer. */
  function Index(y: int, x: int, c: int, w: nat, h: nat): (i: int)
    requires 0 <= y < h && 0 <= x < w && 0 <= c < 4
    ensures i == y * (4 * w) + (4 * x + c)
    ensures 0 <= i < 4 * w * h
  {
    IndexBounds(y, x, c, w, h);
    (y * w + x) * 4 + c
  }

  /** The index byte `i` is exchanged with, for rows of `rl` bytes and `h`
      rows; bytes past the image are not moved. */
  function Mirror(i: int, rl: nat, h: nat): int {
    if 0 <= i < h * rl then (h - 1 - i / rl) * rl + i % rl else i
  }

  /** The buffer `s` with the first `h` rows of `4*w` bytes in reverse order. */
  function Flipped(s: seq<Byte>, w: nat, h: nat): (r: seq<Byte>)
    requires 4 * w * h <= |s|
    ensures |r| == |s|
  {
    MirrorAll(|s|, 4 * w, h);
    seq(|s|, i requires 0 <= i < |s| => s[Mirror(i, 4 * w, h)])
  }

  // ----- arithmetic of rows ------------------------------------------------

  lemma MulAtLeast(a: int, d: int)
    requires 1 <= a && 0 < d
    ensures a * d >= d
  {
  }

  lemma MulNonneg(a: int, d: int)
    requires 0 <= a && 0 <= d
    ensures a * d >= 0
  {
  }

  lemma MulSub(a: int, b: int, d: int)
    ensures (a - b) * d == a * d - b * d
  {
  }

  lemma DivModUnique(i: int, d: int, q: int, r: int)
    requires 0 < d && 0 <= r < d && i == q * d + r
    ensures i / d == q && i % d == r
  {
    var q', r' := i / d, i % d;
    assert i == q' * d + r' && 0 <= r' < d;
    MulSub(q, q', d);
    assert (q - q') * d == r' - r;
    if q' < q {
      MulAtLeast(q - q', d);
    } else if q < q' {
      MulSub(q', q, d);
      MulAtLeast(q' - q, d);
    }
  }

  /** A byte in row `q` lies before row `k` exactly when `q < k`. */
  lemma RowOrder(q: int, r: int, k: int, d: int)
    requires 0 < d && 0 <= r < d
    ensures q * d + r < k * d <==> q < k
  {
    MulSub(k, q, d);
    MulSub(q, k, d);
    if q < k {
      MulAtLeast(k - q, d);
    } else {
      MulNonneg(q - k, d);
    }
  }

  lemma PositiveRow(h: nat, rl: nat, i: int)
    requires 0 <= i < h * rl
    ensures 0 < rl
  {
  }

  /** `Mirror` stays inside the image, undoes itself, and (for an even number
      of rows) sends the top half to the bottom half and back. */
  lemma MirrorFacts(i: int, rl: nat, h: nat)
    requires 0 <= i < h * rl
    ensures 0 <= Mirror(i, rl, h) < h * rl
    ensures Mirror(Mirror(i, rl, h), rl, h) == i
    ensures h % 2 == 0 ==> (i < (h / 2) * rl <==> (h / 2) * rl <= Mirror(i, rl, h))
  {
    PositiveRow(h, rl, i);
    var q, r := i / rl, i % rl;
    assert i == q * rl + r;
    RowOrder(q, r, h, rl);
    RowOrder(q, r, 0, rl);
    var m := (h - 1 - q) * rl + r;
    assert Mirror(i, rl, h) == m;
    RowOrder(h - 1 - q, r, h, rl);
    RowOrder(h - 1 - q, r, 0, rl);
    DivModUnique(m, rl, h - 1 - q, r);
    assert Mirror(m, rl, h) == (h - 1 - (h - 1 - q)) * rl + r;
    RowOrder(q, r, h / 2, rl);
    RowOrder(h - 1 - q, r, h / 2, rl);
  }

  lemma MirrorAll(n: int, rl: nat, h: nat)
    requires h * rl <= n
    ensures forall i :: 0 <= i < n ==> 0 <= Mirror(i, rl, h) < n
  {
    forall i | 0 <= i < n
      ensures 0 <= Mirror(i, rl, h) < n
    {
      if i < h * rl {
        MirrorFacts(i, rl, h);
      }
    }
  }

  lemma IndexBounds(y: int, x: int, c: int, w: nat, h: nat)
    requires 0 <= y < h && 0 <= x < w && 0 <= c < 4
    ensures (y * w + x) * 4 + c == y * (4 * w) + (4 * x + c)
    ensures 0 <= y * (4 * w) + (4 * x + c) < h * (4 * w) == 4 * w * h
  {
    RowOrder(y, 4 * x + c, h, 4 * w);
    RowOrder(y, 4 * x + c, 0, 4 * w);
  }

  /** Channel `c` of pixel (x, y) is exchanged with the same channel of pixel
      (x, h-1-y). */
  lemma MirrorOfPixel(y: int, x: int, c: int, w: nat, h: nat)
    requires 0 <= y < h && 0 <= x < w && 0 <= c < 4
    ensures Mirror(Index(y, x, c, w, h), 4 * w, h) == Index(h - 1 - y, x, c, w, h)
  {
    var i := Index(y, x, c, w, h);
    DivModUnique(i, 4 * w, y, 4 * x + c);
  }

  lemma HalfRows(h: nat, rl: nat)
    ensures 0 <= (h / 2) * rl <= h * rl
  {
    MulSub(h, h / 2, rl);
    MulNonneg(h - h / 2, rl);
    MulNonneg(h / 2, rl);
  }

  // ----- what the flip does ------------------------------------------------

  /** After the flip every channel of every pixel holds the same channel of
      the pixel in the mirrored row, and bytes past the image are untouched. */
  lemma FlippedPixels(s: seq<Byte>, w: nat, h: nat)
    requires 4 * w * h <= |s|
    ensures forall y, x, c :: 0 <= y < h && 0 <= x < w && 0 <= c < 4 ==>
      Flipped(s, w, h)[Index(y, x, c, w, h)] == s[Index(h - 1 - y, x, c, w, h)]
    ensures forall i :: 4 * w * h <= i < |s| ==> Flipped(s, w, h)[i] == s[i]
  {
    forall y, x, c | 0 <= y < h && 0 <= x < w && 0 <= c < 4
      ensures Flipped(s, w, h)[Index(y, x, c, w, h)] == s[Index(h - 1 - y, x, c, w, h)]
    {
      MirrorOfPixel(y, x, c, w, h);
    }
  }

  /** Flipping twice gives back the buffer. */
  lemma FlipTwice(s: seq<Byte>, w: nat, h: nat)
    requires 4 * w * h <= |s|
    ensures Flipped(Flipped(s, w, h), w, h) == s
  {
    var t := Flipped(Flipped(s, w, h), w, h);
    forall i | 0 <= i < |s|
      ensures t[i] == s[i]
    {
      if i < h * (4 * w) {
        MirrorFacts(i, 4 * w, h);
      }
    }
  }

  // ----- the in-place swap loop --------------------------------------------

  /** Byte `i` has been visited once the swap counter has passed it or its
      mirror. */
  predicate Swapped(i: int, n: int, rl: nat, h: nat) {
    0 <= i < h * rl && (i < n || Mirror(i, rl, h) < n)
  }

  /** The buffer `a` after the first `n` swaps of the flip of `s`. */
  ghost predicate FlipProgress(a: seq<Byte>, s: seq<Byte>, n: int, rl: nat, h: nat)
    requires h * rl <= |s|
  {
    MirrorAll(|s|, rl, h);
    |a| == |s| &&
    forall i :: 0 <= i < |a| ==> a[i] == (if Swapped(i, n, rl, h) then s[Mirror(i, rl, h)] else s[i])
  }

  lemma FlipStart(s: seq<Byte>, rl: nat, h: nat)
    requires h * rl <= |s|
    ensures FlipProgress(s, s, 0, rl, h)
  {
    forall i | 0 <= i < |s|
      ensures !Swapped(i, 0, rl, h)
    {
      if 0 <= i < h * rl {
        MirrorFacts(i, rl, h);
      }
    }
  }

  /** One swap of byte `n` of the top half with its mirror extends the progress by one. */
  lemma FlipStep(a: seq<Byte>, s: seq<Byte>, n: int, rl: nat, h: nat)
    requires h * rl <= |s| && h % 2 == 0
    requires 0 <= n < (h / 2) * rl
    requires FlipProgress(a, s, n, rl, h)
    ensures 0 <= Mirror(n, rl, h) < |a|
    ensures FlipProgress(a[n := a[Mirror(n, rl, h)]][Mirror(n, rl, h) := a[n]], s, n + 1, rl, h)
  {
    HalfRows(h, rl);
    MirrorFacts(n, rl, h);
    var q := Mirror(n, rl, h);
    var b := a[n := a[q]][q := a[n]];
    MirrorAll(|s|, rl, h);
    assert !Swapped(n, n, rl, h) && !Swapped(q, n, rl, h);
    assert a[n] == s[n] && a[q] == s[q];
    forall i | 0 <= i < |b|
      ensures b[i] == (if Swapped(i, n + 1, rl, h) then s[Mirror(i, rl, h)] else s[i])
    {
      if i == n {
        assert b[i] == s[q] && Swapped(i, n + 1, rl, h);
      } else if i == q {
        assert b[i] == s[n] && Swapped(i, n + 1, rl, h);
      } else if i < h * rl {
        MirrorFacts(i, rl, h);
        assert Mirror(i, rl, h) != n;
        assert b[i] == a[i] && (Swapped(i, n + 1, rl, h) <==> Swapped(i, n, rl, h));
      } else {
        assert b[i] == a[i] && !Swapped(i, n + 1, rl, h);
      }
    }
  }

  /** When the whole top half has been swapped, the buffer is the flip. */
  lemma FlipDone(a: seq<Byte>, s: seq<Byte>, w: nat, h: nat)
    requires 4 * w * h <= |s| && h % 2 == 0
    requires FlipProgress(a, s, (h / 2) * (4 * w), 4 * w, h)
    ensures a == Flipped(s, w, h)
  {
    var rl := 4 * w;
    var f := Flipped(s, w, h);
    forall i | 0 <= i < |a|
      ensures a[i] == f[i]
    {
      if i < h * rl {
        MirrorFacts(i, rl, h);
        assert Swapped(i, (h / 2) * rl, rl, h);
      }
    }
  }
}
