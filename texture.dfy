/**
 * The `Texture` object (src/texture.cpp): a GL texture name, its unit,
 * target and minification filter; `uploadImage` flips the caller's RGBA
 * buffer in place and hands it to GL, and `createSunBillboardTexture`
 * fills a fresh buffer with the sun glow and uploads it.
 */
module Texturing {
  import opened Gl
  import opened Flip
  import opened SunGlow

  /** How `uploadImage` ends: a bool, or the `runtime_error` for an odd height. */
  datatype UploadOutcome = Uploaded(ok: bool) | ThrewOddHeight

  /** The calls an upload issues after the flip; a mipmap is generated
      exactly when the minification filter is GL_LINEAR_MIPMAP_LINEAR. */
  function UploadCalls(unit: int, target: int, id: int, minfilter: int,
                       w: int, h: int, pixels: seq<Byte>): (cs: seq<Call>)
    ensures |cs| == 5 || |cs| == 6
    ensures cs[..5] == [ActiveTexture(unit), BindTexture(target, id), PixelStore(GL_UNPACK_ALIGNMENT, 1),
                        PixelStore(GL_PACK_ALIGNMENT, 1), TexImage2D(target, w, h, pixels)]
    ensures GenerateMipmap(GL_TEXTURE_2D) in cs <==> minfilter == GL_LINEAR_MIPMAP_LINEAR
  {
    [ActiveTexture(unit), BindTexture(target, id), PixelStore(GL_UNPACK_ALIGNMENT, 1),
     PixelStore(GL_PACK_ALIGNMENT, 1), TexImage2D(target, w, h, pixels)] +
    (if minfilter == GL_LINEAR_MIPMAP_LINEAR then [GenerateMipmap(GL_TEXTURE_2D)] else [])
  }

  /** The calls `init` issues around glGenTextures, which names `id`. */
  function InitCalls(target: int, id: int, minfilter: int, magfilter: int, wrap: int): seq<Call> {
    [BindTexture(target, id),
     TexParameter(target, GL_TEXTURE_MAG_FILTER, magfilter),
     TexParameter(target, GL_TEXTURE_MIN_FILTER, minfilter),
     TexParameter(target, GL_TEXTURE_WRAP_S, wrap),
     TexParameter(target, GL_TEXTURE_WRAP_T, wrap)]
  }

  class Texture {
    var id: int
    var unit: int
    var target: int
    var minfilter: int

    /** Only the name is initialised, to 0; unit, target and filter are not. */
    constructor ()
      ensures id == 0
    {
      id := 0;
    }

    /** `init`: remembers unit, target and filter, creates the texture
        object and sets its parameters. */
    method Init(gl: Context, unit': int, target': int, minfilter': int, magfilter: int, wrap: int)
      modifies this, gl
      ensures unit == unit' && target == target' && minfilter == minfilter'
      ensures id == old(gl.next)
      ensures gl.Value() == RecordAll(Alloc(Record(old(gl.Value()), ActiveTexture(unit')), GenTexture(id)),
                                      InitCalls(target', id, minfilter', magfilter, wrap))
    {
      unit, target, minfilter := unit', target', minfilter';
      gl.Issue(ActiveTexture(unit));
      id := gl.Create(t => GenTexture(t));
      gl.Issue(BindTexture(target, id));
      gl.Issue(TexParameter(target, GL_TEXTURE_MAG_FILTER, magfilter));
      gl.Issue(TexParameter(target, GL_TEXTURE_MIN_FILTER, minfilter));
      gl.Issue(TexParameter(target, GL_TEXTURE_WRAP_S, wrap));
      gl.Issue(TexParameter(target, GL_TEXTURE_WRAP_T, wrap));
    }

    /** `bind`, whose `assert(id_)` is its precondition. */
    method Bind(gl: Context)
      requires id != 0
      modifies gl
      ensures gl.Value() == RecordAll(old(gl.Value()), [ActiveTexture(unit), BindTexture(target, id)])
    {
      gl.Issue(ActiveTexture(unit));
      gl.Issue(BindTexture(target, id));
    }

    /** The destructor: deletes the texture object if there is one. */
    method Destroy(gl: Context)
      modifies gl
      ensures gl.Value() == if id != 0 then Free(old(gl.Value()), id, DeleteTexture(id)) else old(gl.Value())
    {
      if id != 0 {
        gl.Delete(id, DeleteTexture(id));
      }
    }

    /** `uploadImage`: without a texture object it refuses, on an odd height
        it throws, both before touching the buffer; otherwise it flips the
        first `height` rows in place and uploads them. */
    method UploadImage(gl: Context, img: array<Byte>, width: nat, height: nat) returns (result: UploadOutcome)
      requires 4 * width * height <= img.Length
      modifies img, gl
      ensures id == 0 ==> result == Uploaded(false)
      ensures id != 0 && height % 2 != 0 ==> result == ThrewOddHeight
      ensures result != Uploaded(true) ==> img[..] == old(img[..]) && gl.Value() == old(gl.Value())
      ensures result == Uploaded(true) <==> id != 0 && height % 2 == 0
      ensures result == Uploaded(true) ==>
        && img[..] == Flipped(old(img[..]), width, height)
        && gl.Value() == RecordAll(old(gl.Value()),
             UploadCalls(unit, target, id, minfilter, width, height, img[..4 * width * height]))
    {
      if id == 0 {
        return Uploaded(false);
      }
      if height % 2 != 0 {
        return ThrewOddHeight;
      }
      ghost var s := img[..];
      ghost var rl := 4 * width;
      FlipStart(s, rl, height);
      HalfRows(height, rl);
      ghost var n := 0;
      var y := 0;
      while y < height / 2
        modifies img
        invariant 0 <= y <= height / 2
        invariant n == y * rl
        invariant FlipProgress(img[..], s, n, rl, height)
      {
        var x := 0;
        while x < width
          invariant 0 <= x <= width
          invariant n == y * rl + 4 * x
          invariant FlipProgress(img[..], s, n, rl, height)
        {
          var c := 0;
          while c < 4
            invariant 0 <= c <= 4
            invariant n == y * rl + 4 * x + c
            invariant FlipProgress(img[..], s, n, rl, height)
          {
            MirrorOfPixel(y, x, c, width, height);
            RowOrder(y, 4 * x + c, height / 2, rl);
            var p := (y * width + x) * 4 + c;
            var q := ((height - y - 1) * width + x) * 4 + c;
            assert p == Index(y, x, c, width, height) == n;
            assert q == Index(height - 1 - y, x, c, width, height) == Mirror(n, rl, height);
            FlipStep(img[..], s, n, rl, height);
            ghost var a := img[..];
            img[p], img[q] := img[q], img[p];
            assert img[..] == a[n := a[Mirror(n, rl, height)]][Mirror(n, rl, height) := a[n]];
            n := n + 1;
            c := c + 1;
          }
          x := x + 1;
        }
        MulSub(y + 1, 1, rl);
        y := y + 1;
      }
      FlipDone(img[..], s, width, height);
      ghost var g0 := gl.Value();
      gl.Issue(ActiveTexture(unit));
      gl.Issue(BindTexture(target, id));
      gl.Issue(PixelStore(GL_UNPACK_ALIGNMENT, 1));
      gl.Issue(PixelStore(GL_PACK_ALIGNMENT, 1));
      gl.Issue(TexImage2D(target, width, height, img[..4 * width * height]));
      if minfilter == GL_LINEAR_MIPMAP_LINEAR {
        gl.Issue(GenerateMipmap(GL_TEXTURE_2D));
      }
      assert gl.Value() == RecordAll(g0, UploadCalls(unit, target, id, minfilter, width, height, img[..4 * width * height]));
      return Uploaded(true);
    }

    /** `createSunBillboardTexture`: fills a zeroed 900 x 900 RGBA buffer row
        by row, carrying `G` from pixel to pixel, then uploads it. */
    method CreateSunBillboardTexture(gl: Context, fade: int -> Fraction) returns (result: UploadOutcome)
      modifies gl
      ensures result == Uploaded(id != 0)
      ensures id != 0 ==> gl.Value() == RecordAll(old(gl.Value()),
        UploadCalls(unit, target, id, minfilter, Size, Size, Flipped(Billboard(fade), Size, Size)))
      ensures id == 0 ==> gl.Value() == old(gl.Value())
    {
      var img := new Byte[Size * Size * 4];
      FillSunBillboard(img, fade);
      result := UploadImage(gl, img, Size, Size);
      assert img[..4 * Size * Size] == img[..];
    }
  }

  /** The fill loop of `createSunBillboardTexture`: pixels in row-major
      order, `G` carried across them. */
  method FillSunBillboard(img: array<Byte>, fade: int -> Fraction)
    requires img.Length == Bytes
    modifies img
    ensures img[..] == Billboard(fade)
  {
    var g: Byte := StartGreen;
    var y := 0;
    while y < Size
      invariant 0 <= y <= Size
      invariant Filled(img[..], fade, 4 * (y * Size))
      invariant g == GreenBefore(fade, y * Size)
    {
      var x := 0;
      while x < Size
        invariant 0 <= x <= Size
        invariant Filled(img[..], fade, 4 * (y * Size + x))
        invariant g == GreenBefore(fade, y * Size + x)
      {
        g := FillPixel(img, fade, x, y, g);
        x := x + 1;
      }
      y := y + 1;
    }
    FillDone(img[..], fade);
  }

  /** The body of the fill loop: pixel (x, y) is written from its squared
      distance to the centre, and `G` is updated in the fade zone. */
  method FillPixel(img: array<Byte>, fade: int -> Fraction, x: int, y: int, g: Byte) returns (g': Byte)
    requires 0 <= x < Size && 0 <= y < Size
    requires Filled(img[..], fade, 4 * (y * Size + x)) && g == GreenBefore(fade, y * Size + x)
    modifies img
    ensures Filled(img[..], fade, 4 * (y * Size + x + 1)) && g' == GreenBefore(fade, y * Size + x + 1)
  {
    g' := g;
    var d := (x - Center) * (x - Center) + (y - Center) * (y - Center);
    var alpha: Fraction;
    if d < InnerSq {
      alpha := 1.0;
    } else if d < OuterSq {
      alpha := fade(d);
      g' := FadeGreen(alpha);
    } else {
      alpha := 0.0;
    }
    var a: Byte := (255.0 * alpha).Floor;
    var k := y * Size + x;
    PixelZone(x, y);
    assert g' == GreenAt(fade, k);
    assert a == AlphaByte(ZoneAt(k), fade(DistAt(k)));
    ghost var before: seq<Byte> := img[..];
    img[4 * k] := Red;
    img[4 * k + 1] := g';
    img[4 * k + 2] := Blue;
    img[4 * k + 3] := a;
    assert img[..] == before[4 * k := Red][4 * k + 1 := g'][4 * k + 2 := Blue][4 * k + 3 := a];
    FillStep(before, fade, k, g', a);
  }

  lemma PixelZone(x: int, y: int)
    requires 0 <= x < Size && 0 <= y < Size
    ensures 0 <= y * Size + x < Size * Size
    ensures DistAt(y * Size + x) == (x - Center) * (x - Center) + (y - Center) * (y - Center)
    ensures ZoneAt(y * Size + x) == ZoneOf(x, y)
  {
    PixelNumber(x, y);
  }

  /** The first `n` bytes of `a` are those of the billboard. */
  ghost predicate Filled(a: seq<Byte>, fade: int -> Fraction, n: int) {
    |a| == Bytes && 0 <= n <= Bytes && forall i :: 0 <= i < n ==> a[i] == BillboardByte(fade, i)
  }

  /** Writing pixel `k`'s four bytes extends the filled prefix by one pixel. */
  lemma FillStep(a: seq<Byte>, fade: int -> Fraction, k: nat, g: Byte, alpha: Byte)
    requires 4 * k + 4 <= Bytes && Filled(a, fade, 4 * k)
    requires g == GreenAt(fade, k) && alpha == AlphaByte(ZoneAt(k), fade(DistAt(k)))
    ensures Filled(a[4 * k := Red][4 * k + 1 := g][4 * k + 2 := Blue][4 * k + 3 := alpha], fade, 4 * k + 4)
  {
    PixelBytes(fade, k);
  }

  lemma FillDone(a: seq<Byte>, fade: int -> Fraction)
    requires Filled(a, fade, Bytes)
    ensures a == Billboard(fade)
  {
  }

  lemma PixelBytes(fade: int -> Fraction, k: nat)
    ensures BillboardByte(fade, 4 * k) == Red
    ensures BillboardByte(fade, 4 * k + 1) == GreenAt(fade, k)
    ensures BillboardByte(fade, 4 * k + 2) == Blue
    ensures BillboardByte(fade, 4 * k + 3) == AlphaByte(ZoneAt(k), fade(DistAt(k)))
  {
    assert (4 * k + 3) / 4 == k && (4 * k + 3) % 4 == 3;
    assert (4 * k + 2) / 4 == k && (4 * k + 2) % 4 == 2;
    assert (4 * k + 1) / 4 == k && (4 * k + 1) % 4 == 1;
    assert (4 * k) / 4 == k && (4 * k) % 4 == 0;
  }
}
